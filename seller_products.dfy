/**
 * The seller's product page (`SellerProducts`): the form state
 * `isCreating`/`editingId`/`productData`, the create, update and delete
 * requests it sends to the `products` table, and which of them the save
 * button dispatches.
 */
module SellerProducts {
  import opened Js
  import opened Backend

  /** `productData`: every field is the text typed into the form. */
  datatype ProductForm = ProductForm(
    name: string,
    description: string,
    price: string,
    category: string,
    stock: string,
    imageUrl: string)

  /** What `resetForm` writes. */
  const EmptyForm := ProductForm("", "", "", "", "", "")

  /** `parseInt(productData.stock) || 0`: the stock written by create and update. */
  function StockOf(form: ProductForm): int {
    ParseIntOrZero(form.stock)
  }

  /** The row `createProduct` inserts. */
  function NewProductRow(form: ProductForm, storeId: StoreId): (r: ProductRow)
    ensures r.storeId == storeId
    ensures r.stock == Some(ParseIntOrZero(form.stock))
    ensures r.name == form.name && r.price == form.price
  {
    ProductRow(storeId, form.name, Some(form.description), form.price, Some(form.category),
               Some(StockOf(form)), Some(form.imageUrl))
  }

  /** The row after `updateProduct`: every form column is replaced, the store is kept. */
  function UpdatedProductRow(row: ProductRow, form: ProductForm): (r: ProductRow)
    ensures r.storeId == row.storeId
    ensures r == NewProductRow(form, row.storeId)
  {
    row.(name := form.name, description := Some(form.description), price := form.price,
         category := Some(form.category), stock := Some(StockOf(form)),
         imageUrl := Some(form.imageUrl))
  }

  /**
   * The `products` table after an update filtered by `id = productId`: only
   * that row changes, and no row appears or disappears.
   */
  function UpdateWhereId(products: map<ProductId, ProductRow>, productId: ProductId, form: ProductForm)
    : (r: map<ProductId, ProductRow>)
    ensures r.Keys == products.Keys
    ensures forall id :: id in r && id != productId ==> r[id] == products[id]
    ensures productId in products ==> r[productId] == UpdatedProductRow(products[productId], form)
  {
    if productId in products
    then products[productId := UpdatedProductRow(products[productId], form)]
    else products
  }

  /**
   * The form `startEditing` fills from a product: a missing description,
   * category or image URL becomes '', a missing stock '0'. Parsing the
   * stock text back gives the product's stock, or 0 when it had none.
   */
  function EditForm(row: ProductRow): (f: ProductForm)
    ensures f.name == row.name && f.price == row.price
    ensures ParseIntOrZero(f.stock) == match row.stock case Some(n) => n case None => 0
  {
    ProductForm(
      row.name,
      OrElse(row.description, ""),
      row.price,
      OrElse(row.category, ""),
      StockText(row.stock),
      OrElse(row.imageUrl, ""))
  }

  /** `product.stock?.toString() || '0'`, which reads back as the stock, or 0. */
  function StockText(stock: Option<int>): (t: string)
    ensures ParseIntOrZero(t) == match stock case Some(n) => n case None => 0
  {
    match stock
    case Some(n) =>
      ParseIntOfToString(n);
      OrElse(Some(IntToString(n)), "0")
    case None =>
      ParseIntOfToString(0);
      assert IntToString(0) == "0";
      "0"
  }

  /** A row with every optional text filled ('' when absent) and a missing stock read as 0. */
  function Filled(row: ProductRow): ProductRow {
    row.(description := Some(OrElse(row.description, "")),
         category := Some(OrElse(row.category, "")),
         stock := Some(match row.stock case Some(n) => n case None => 0),
         imageUrl := Some(OrElse(row.imageUrl, "")))
  }

  /**
   * Opening a product in the form and saving it untouched writes the row
   * back with only its missing fields filled in: in particular its stock
   * survives the text round trip.
   */
  lemma EditThenSaveKeepsRow(row: ProductRow)
    ensures UpdatedProductRow(row, EditForm(row)) == Filled(row)
  {
  }

  class ProductsPage {
    const store: Option<MyStore>
    var isCreating: bool
    var editingId: Option<ProductId>
    var form: ProductForm
    /** The `products` table. */
    var products: map<ProductId, ProductRow>
    /** How many times the product list has been refetched. */
    var refetches: nat

    constructor (store: Option<MyStore>, products: map<ProductId, ProductRow>)
      ensures this.store == store && this.products == products
      ensures !isCreating && editingId == None && form == EmptyForm && refetches == 0
    {
      this.store := store;
      this.products := products;
      isCreating, editingId, form, refetches := false, None, EmptyForm, 0;
    }

    /** Without a store the page shows only the "Toko Diperlukan" card. */
    predicate ShowsStoreRequired()
    {
      store.None?
    }

    /** `store?.id` is truthy. */
    predicate HasStoreId()
    {
      store.Some? && store.value.id != ""
    }

    /** The add/edit form is shown while creating or while `editingId` is truthy. */
    predicate FormShown()
      reads this
    {
      isCreating || Truthy(editingId)
    }

    /** The form's title, which also tells what the save button will do. */
    function FormTitle(): (title: string)
      reads this
      ensures title == "Tambah Produk Baru" <==> isCreating
    {
      if isCreating then "Tambah Produk Baru" else "Edit Produk"
    }

    method ResetForm()
      modifies this`form
      ensures form == EmptyForm
    {
      form := EmptyForm;
    }

    /** The "Tambah Produk" buttons: only `isCreating` changes. */
    method StartCreating()
      modifies this`isCreating
      ensures isCreating
    {
      isCreating := true;
    }

    /**
     * `createProduct`: nothing without a store id (an empty id counts as
     * none); otherwise the form is inserted under the store's id, and on
     * success creating ends, the form is reset and the list refetched.
     * `newId` is the id the backend generates for the new row, which no row
     * has yet.
     */
    method CreateProduct(newId: ProductId, outcome: WriteOutcome)
      requires newId !in products
      modifies this`isCreating, this`form, this`products, this`refetches
      ensures !HasStoreId() || outcome == WriteFailed ==>
        isCreating == old(isCreating) && form == old(form)
        && products == old(products) && refetches == old(refetches)
      ensures HasStoreId() && outcome == WriteOk ==>
        !isCreating && form == EmptyForm && refetches == old(refetches) + 1
        && products == old(products)[newId := NewProductRow(old(form), store.value.id)]
    {
      if HasStoreId() && outcome == WriteOk {
        var row := NewProductRow(form, store.value.id);
        products := products[newId := row];
        isCreating := false;
        form := EmptyForm;
        refetches := refetches + 1;
      }
    }

    /**
     * `updateProduct(productId)`: only the row `productId` is rewritten; on
     * success editing ends, the form is reset and the list refetched.
     */
    method UpdateProduct(productId: ProductId, outcome: WriteOutcome)
      modifies this`editingId, this`form, this`products, this`refetches
      ensures outcome == WriteFailed ==>
        editingId == old(editingId) && form == old(form)
        && products == old(products) && refetches == old(refetches)
      ensures outcome == WriteOk ==>
        editingId == None && form == EmptyForm && refetches == old(refetches) + 1
        && products == UpdateWhereId(old(products), productId, old(form))
    {
      if outcome == WriteOk {
        products := UpdateWhereId(products, productId, form);
        editingId := None;
        ResetForm();
        refetches := refetches + 1;
      }
    }

    /** `deleteProduct(productId)`: removes that row only; the form state is untouched. */
    method DeleteProduct(productId: ProductId, outcome: WriteOutcome)
      modifies this`products, this`refetches
      ensures outcome == WriteFailed ==> products == old(products) && refetches == old(refetches)
      ensures outcome == WriteOk ==>
        products == old(products) - {productId} && refetches == old(refetches) + 1
    {
      if outcome == WriteOk {
        products := products - {productId};
        refetches := refetches + 1;
      }
    }

    /** `startEditing(product)`: the form holds the product and `editingId` its id. */
    method StartEditing(productId: ProductId, row: ProductRow)
      modifies this`form, this`editingId
      ensures form == EditForm(row) && editingId == Some(productId)
    {
      form := EditForm(row);
      editingId := Some(productId);
    }

    /**
     * The save button, present only while the form is shown: it creates
     * when `isCreating` is set, even if a product is being edited too, and
     * otherwise updates the product being edited.
     */
    method Save(newId: ProductId, outcome: WriteOutcome)
      requires FormShown()
      requires isCreating ==> newId !in products
      modifies this`isCreating, this`editingId, this`form, this`products, this`refetches
      ensures old(isCreating) && (!HasStoreId() || outcome == WriteFailed) ==>
        isCreating && editingId == old(editingId) && form == old(form)
        && products == old(products) && refetches == old(refetches)
      ensures old(isCreating) && HasStoreId() && outcome == WriteOk ==>
        !isCreating && editingId == old(editingId) && form == EmptyForm
        && refetches == old(refetches) + 1
        && products == old(products)[newId := NewProductRow(old(form), store.value.id)]
      ensures !old(isCreating) && outcome == WriteFailed ==>
        !isCreating && editingId == old(editingId) && form == old(form)
        && products == old(products) && refetches == old(refetches)
      ensures !old(isCreating) && outcome == WriteOk ==>
        !isCreating && editingId == None && form == EmptyForm
        && refetches == old(refetches) + 1
        && products == UpdateWhereId(old(products), old(editingId).value, old(form))
    {
      if isCreating {
        CreateProduct(newId, outcome);
      } else {
        UpdateProduct(editingId.value, outcome);
      }
    }

    /** "Batal": leaves both modes and resets the form. */
    method Cancel()
      modifies this`isCreating, this`editingId, this`form
      ensures !isCreating && editingId == None && form == EmptyForm
      ensures !FormShown()
    {
      isCreating := false;
      editingId := None;
      ResetForm();
    }
  }
}
