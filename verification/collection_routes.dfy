/** The collection routes: the listing of all collections (custom ones first, then smart
    ones) and one collection by handle with its products shaped. The Admin API's answers are
    inputs: a listing is the array it returned, or the message of the error the request threw. */
module CollectionRoutes {
  import opened Wrappers
  import opened Catalogue

  datatype Collection = Collection(id: int, title: Option<string>, handle: Option<string>, bodyHtml: Option<string>)

  /** Which of the two collection kinds a collection came from. */
  datatype Kind = Custom | Smart

  datatype CollectionView = CollectionView(gid: string, legacyId: int, description: Option<string>, kind: Kind)

  /** The answers; both success bodies carry their array as `data`. */
  datatype CollectionsResponse =
    | Failure(status: nat, message: string, error: Option<string>)
    | Collections(totalCollections: nat, data: seq<CollectionView>)
    | CollectionPage(collection: CollectionView, seoDescription: Option<string>, totalProducts: nat,
                     products: seq<ProductView>)

  /** The answer to a collection request: the collections (an absent array is the empty one),
      or the message of the error it threw. */
  type Listing = Result<seq<Collection>, string>

  const CollectionNotFound := "Collection not found"
  const ListFailed := "Failed to fetch collections"
  const DetailsFailed := "Failed to fetch collection details"

  function View(c: Collection, kind: Kind): CollectionView {
    CollectionView(Gid("Collection", c.id), c.id, Description(c.bodyHtml), kind)
  }

  /** `collections.map(...)` tagged with their kind. */
  function Views(cs: seq<Collection>, kind: Kind): (r: seq<CollectionView>)
    ensures |r| == |cs|
    ensures forall i :: 0 <= i < |cs| ==> r[i].kind == kind && r[i].legacyId == cs[i].id
  {
    seq(|cs|, i requires 0 <= i < |cs| => View(cs[i], kind))
  }

  /** `GET /collections`: both listings are awaited together, so either one failing fails the
      route. */
  function ListCollectionsRoute(custom: Listing, smart: Listing): (r: CollectionsResponse)
    ensures r.Failure? <==> custom.Err? || smart.Err?
    ensures r.Failure? ==> r.status == 500 && r.message == ListFailed
    ensures r.Collections? ==> r.totalCollections == |r.data| == |custom.value| + |smart.value|
    ensures r.Collections? ==> forall i :: 0 <= i < |custom.value| ==> r.data[i] == View(custom.value[i], Custom)
    ensures r.Collections? ==>
      forall j :: 0 <= j < |smart.value| ==> r.data[|custom.value| + j] == View(smart.value[j], Smart)
  {
    match (custom, smart)
    case (Err(e), _) => Failure(500, ListFailed, Some(e))
    case (_, Err(e)) => Failure(500, ListFailed, Some(e))
    case (Ok(cs), Ok(ss)) =>
      var all := Views(cs, Custom) + Views(ss, Smart);
      Collections(|all|, all)
  }

  /** The first collection of a lookup that answered with at least one. */
  predicate Hit(l: Listing) {
    l.Ok? && |l.value| > 0
  }

  /** The handle lookup: the custom collections first; the smart ones only when that lookup
      found none or threw (its error is swallowed). */
  function FindCollection(custom: Listing, smart: Listing): (r: Option<(Collection, Kind)>)
    ensures r.None? <==> !Hit(custom) && !Hit(smart)
    ensures r.Some? && r.value.1 == Custom <==> Hit(custom)
    ensures r.Some? ==> r.value.0 == (if Hit(custom) then custom.value[0] else smart.value[0])
  {
    if Hit(custom) then Some((custom.value[0], Custom))
    else if Hit(smart) then Some((smart.value[0], Smart))
    else None
  }

  /** `GET /collections/:collectionHandle`, with the two lookups and the products of the
      collection that was found (fetched in listing order, or the error a fetch threw). */
  function CollectionRoute(custom: Listing, smart: Listing, products: Result<seq<Product>, string>): (r: CollectionsResponse)
    ensures FindCollection(custom, smart).None? <==> r == Failure(404, CollectionNotFound, None)
    ensures FindCollection(custom, smart).Some? && products.Err? ==> r == Failure(500, DetailsFailed, Some(products.error))
    ensures r.CollectionPage? <==>
      FindCollection(custom, smart).Some? && products.Ok? && FormatProducts(products.value).Ok?
    ensures r.CollectionPage? ==>
      var (c, kind) := FindCollection(custom, smart).value;
      && r.collection == View(c, kind)
      && r.seoDescription == SeoDescription(c.bodyHtml)
      && r.totalProducts == |r.products| == |products.value|
      && forall i :: 0 <= i < |r.products| ==> FormatProduct(products.value[i]) == Ok(r.products[i])
    ensures r.Failure? && r.status == 500 ==> r.message == DetailsFailed
    ensures !r.Failure? || r.status in {404, 500}
  {
    match FindCollection(custom, smart)
    case None => Failure(404, CollectionNotFound, None)
    case Some((c, kind)) =>
      match products
      case Err(e) => Failure(500, DetailsFailed, Some(e))
      case Ok(ps) =>
        match FormatProducts(ps)
        case Err(e) => Failure(500, DetailsFailed, Some(e))
        case Ok(data) => CollectionPage(View(c, kind), SeoDescription(c.bodyHtml), |data|, data)
  }

  // ---------------------------------------------------------------- properties

  /** In the listing every custom collection comes before every smart one. */
  lemma ListingCustomFirst(custom: Listing, smart: Listing)
    ensures var r := ListCollectionsRoute(custom, smart);
      r.Collections? ==>
        forall i, j :: 0 <= i < j < |r.data| && r.data[j].kind == Custom ==> r.data[i].kind == Custom
  {
    var r := ListCollectionsRoute(custom, smart);
    if r.Collections? {
      var all := Views(custom.value, Custom) + Views(smart.value, Smart);
      assert forall i :: 0 <= i < |all| ==> (all[i].kind == Custom <==> i < |custom.value|);
    }
  }

  /** When a custom collection matches the handle, the smart lookup does not matter. */
  lemma CustomLookupWins(custom: Listing, smart: Listing, smart': Listing, products: Result<seq<Product>, string>)
    requires Hit(custom)
    ensures CollectionRoute(custom, smart, products) == CollectionRoute(custom, smart', products)
  {
  }

  /** A custom lookup that throws is treated like one that finds nothing. */
  lemma FailedCustomLookupIgnored(e: string, smart: Listing, products: Result<seq<Product>, string>)
    ensures CollectionRoute(Err(e), smart, products) == CollectionRoute(Ok([]), smart, products)
  {
  }
}
