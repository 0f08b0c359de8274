/**
 * The search results page (`SearchResults`): the query taken from the
 * address, the `products`/`loading`/`error` state of its fetch, and how
 * each fetched row is turned into a product card.
 */
module SearchResults {
  import opened Js
  import opened Backend

  /** The joined `store:store_id(name, address)`; the join may be empty. */
  datatype StoreRef = StoreRef(name: Option<string>, address: Option<string>)

  /** A fetched row. `price` is the number's text; its value is not modelled. */
  datatype SearchRow = SearchRow(
    id: ProductId,
    name: string,
    price: string,
    imageUrl: Option<string>,
    description: Option<string>,
    category: Option<string>,
    store: Option<StoreRef>)

  /** A product card as the page hands it on. */
  datatype ResultCard = ResultCard(
    id: ProductId,
    name: string,
    price: string,
    imageUrl: Option<string>,
    description: Option<string>,
    category: Option<string>,
    reviews: int,
    location: string,
    store: string)

  /** How the search query ended: its rows, or a thrown error. */
  datatype FetchOutcome = Rows(rows: seq<SearchRow>) | Failed

  const DefaultLocation := "Banjarbaru"
  const DefaultStore := "Toko UMKM"
  const FetchError := "Gagal memuat hasil pencarian. Silakan coba lagi."

  /** `searchParams.get('q') || ''` */
  function QueryOf(q: Option<string>): string {
    OrElse(q, "")
  }

  /**
   * `product.store?.address?.split(',')[0] || 'Banjarbaru'`: the address up
   * to its first comma, or the default when that is empty or there is no
   * address.
   */
  function Location(store: Option<StoreRef>): (loc: string)
    ensures loc == DefaultLocation || (store.Some? && store.value.address.Some? && loc <= store.value.address.value)
    ensures ',' !in loc
    ensures store.None? || store.value.address.None? ==> loc == DefaultLocation
    ensures store.Some? && store.value.address.Some? && BeforeFirst(store.value.address.value, ',') != [] ==>
      loc == BeforeFirst(store.value.address.value, ',')
    ensures store.Some? && store.value.address.Some? && BeforeFirst(store.value.address.value, ',') == [] ==>
      loc == DefaultLocation
  {
    if store.Some? && store.value.address.Some?
    then OrElse(Some(BeforeFirst(store.value.address.value, ',')), DefaultLocation)
    else DefaultLocation
  }

  /** An address that starts with a comma shows the default location. */
  lemma LeadingCommaShowsDefault(name: Option<string>, rest: string)
    ensures Location(Some(StoreRef(name, Some([','] + rest)))) == DefaultLocation
  {
    assert BeforeFirst([','] + rest, ',') == [];
  }

  /** An address with a non-empty first part shows exactly that part. */
  lemma LocationIsFirstPart(name: Option<string>, part: string, rest: string)
    requires part != [] && ',' !in part
    ensures Location(Some(StoreRef(name, Some(part + [','] + rest)))) == part
  {
    BeforeFirstOfPrefix(part, rest);
  }

  /** An address without a comma is shown whole. */
  lemma CommaFreeAddressShownWhole(name: Option<string>, address: string)
    requires address != [] && ',' !in address
    ensures Location(Some(StoreRef(name, Some(address)))) == address
  {
  }

  lemma {:induction false} BeforeFirstOfPrefix(part: string, rest: string)
    requires ',' !in part
    ensures BeforeFirst(part + [','] + rest, ',') == part
  {
    if part != [] {
      assert (part + [','] + rest)[1..] == part[1..] + [','] + rest;
      BeforeFirstOfPrefix(part[1..], rest);
    }
  }

  /** `product.store?.name || 'Toko UMKM'` */
  function StoreName(store: Option<StoreRef>): (s: string)
    ensures store.Some? && Truthy(store.value.name) ==> s == store.value.name.value
    ensures !(store.Some? && Truthy(store.value.name)) ==> s == DefaultStore
  {
    if store.Some? then OrElse(store.value.name, DefaultStore) else DefaultStore
  }

  /**
   * One card: the row's own fields, the price written `Rp <localised>`,
   * ten reviews, and the location and store name with their defaults.
   */
  function FormatRow(row: SearchRow, localise: string -> string): (c: ResultCard)
    ensures c.id == row.id && c.name == row.name && c.reviews == 10
    ensures c.location == Location(row.store) && c.store == StoreName(row.store)
  {
    ResultCard(row.id, row.name, "Rp " + localise(row.price), row.imageUrl, row.description,
               row.category, 10, Location(row.store), StoreName(row.store))
  }

  /** The formatted list: one card per row, in the order fetched. */
  function FormatRows(rows: seq<SearchRow>, localise: string -> string): (cards: seq<ResultCard>)
    ensures |cards| == |rows|
    ensures forall i :: 0 <= i < |rows| ==> cards[i] == FormatRow(rows[i], localise)
  {
    seq(|rows|, i requires 0 <= i < |rows| => FormatRow(rows[i], localise))
  }

  class SearchPage {
    const query: string
    var products: seq<ResultCard>
    var loading: bool
    var error: Option<string>

    constructor (q: Option<string>)
      ensures query == QueryOf(q) && products == [] && loading && error.None?
    {
      query := QueryOf(q);
      products, loading, error := [], true, None;
    }

    /** The "nothing found" block shows when done, empty and without error. */
    predicate ShowsNothingFound()
      reads this
    {
      !loading && products == [] && error.None?
    }

    /**
     * The effect run for the query: an empty query fetches nothing and
     * ends loading with no products; otherwise a fetch starts, loading,
     * with the error cleared.
     */
    method OnQuery()
      modifies this`products, this`loading, this`error
      ensures query == "" ==> products == [] && !loading && error == old(error)
      ensures query != "" ==> products == old(products) && loading && error.None?
    {
      if query == "" {
        products := [];
        loading := false;
      } else {
        loading := true;
        error := None;
      }
    }

    /**
     * The fetch settles: rows replace the products, a failure sets the
     * fixed error text and keeps the products; loading ends either way.
     */
    method FetchSettled(outcome: FetchOutcome, localise: string -> string)
      modifies this`products, this`loading, this`error
      ensures !loading
      ensures outcome.Rows? ==> products == FormatRows(outcome.rows, localise) && error == old(error)
      ensures outcome.Failed? ==> products == old(products) && error == Some(FetchError)
    {
      if outcome.Rows? {
        products := FormatRows(outcome.rows, localise);
      } else {
        error := Some(FetchError);
      }
      loading := false;
    }
  }

  /**
   * A query the address does not carry, or carries empty, ends with the
   * "nothing found" block.
   */
  method EmptyQueryShowsNothingFound(q: Option<string>) returns (page: SearchPage)
    requires !Truthy(q)
    ensures page.ShowsNothingFound()
  {
    page := new SearchPage(q);
    page.OnQuery();
  }
}
