/**
 * The hosted backend as the application sees it: rows of the `stores`,
 * `products` and `profiles` tables, each table an abstract map from row id
 * to row, and the outcome of every request, which the backend decides and
 * the model takes as an input.
 */
module Backend {
  import opened Js

  type UserId = string
  type StoreId = string
  type ProductId = string

  /** The authenticated principal, as the authentication client hands it out. */
  datatype User = User(id: UserId, email: Option<string>, metadataFullName: Option<string>)

  /** A `stores` row. */
  datatype StoreRow = StoreRow(
    ownerId: UserId,
    name: Option<string>,
    description: Option<string>,
    address: Option<string>,
    phone: Option<string>,
    isVerified: bool)

  /** The signed-in seller's own store, as the `my-store` query returns it. */
  datatype MyStore = MyStore(id: StoreId, row: StoreRow)

  /**
   * A `products` row. `price` is the text handed to `parseFloat` and read
   * back with `toString`; the floating-point value itself is not modelled.
   */
  datatype ProductRow = ProductRow(
    storeId: StoreId,
    name: string,
    description: Option<string>,
    price: string,
    category: Option<string>,
    stock: Option<int>,
    imageUrl: Option<string>)

  /** A `profiles` row; `updatedAt` is the client's clock reading, an opaque text. */
  datatype ProfileRow = ProfileRow(
    fullName: Option<string>,
    email: Option<string>,
    phone: Option<string>,
    address: Option<string>,
    updatedAt: Option<string>)

  /**
   * How a write request ended. An insert that succeeds stores its row under
   * an id the backend chooses; the model receives that id as an input too.
   */
  datatype WriteOutcome = WriteOk | WriteFailed
}
