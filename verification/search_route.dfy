/** The product search route: the query is validated, the products the Admin API returned are
    filtered again by a case-insensitive substring match over several fields, and the products
    kept are shaped as the collection route shapes them. */
module SearchRoute {
  import opened Wrappers
  import opened JsText
  import opened Catalogue

  datatype SearchResponse =
    | Failure(status: nat, message: string, error: Option<string>)
    | Results(query: string, totalResults: nat, data: seq<ProductView>)

  const QueryRequired := "Search query is required"
  const SearchFailed := "Failed to search products"

  /** `(x || "")` on an optional string. */
  function Text(s: Option<string>): string {
    s.GetOr("")
  }

  /** Some variant's SKU, lower-cased, contains the term. */
  predicate SkuMatch(vs: seq<Variant>, term: string) {
    exists i :: 0 <= i < |vs| && Includes(ToLower(Text(vs[i].sku)), term)
  }

  /** The filter's test against an already lower-cased term: the title, the description with
      its tags stripped, the product type, the vendor and the raw tag string, each lower-cased,
      the id's numeral, or some SKU contains it. */
  predicate Matches(p: Product, term: string) {
    || Includes(ToLower(Text(p.title)), term)
    || Includes(ToLower(StripTags(Text(p.bodyHtml))), term)
    || Includes(ToLower(Text(p.productType)), term)
    || Includes(ToLower(Text(p.vendor)), term)
    || Includes(ToLower(Text(p.tags)), term)
    || Includes(IntToString(p.id), term)
    || SkuMatch(p.variants, term)
  }

  /** The texts the filter searches, in the order it tries them: the five lower-cased fields
      (the description without its tags), the id's numeral, then each variant's lower-cased
      SKU. */
  function SearchedTexts(p: Product): (r: seq<string>)
    ensures |r| == 6 + |p.variants|
  {
    [ToLower(Text(p.title)), ToLower(StripTags(Text(p.bodyHtml))), ToLower(Text(p.productType)),
     ToLower(Text(p.vendor)), ToLower(Text(p.tags)), IntToString(p.id)]
    + seq(|p.variants|, i requires 0 <= i < |p.variants| => ToLower(Text(p.variants[i].sku)))
  }

  /** A product the search for `query` keeps. The query is lower-cased but not trimmed. */
  predicate Kept(query: string, p: Product) {
    Matches(p, ToLower(query))
  }

  /** `products.filter(...)`: the kept products, in their order. */
  function Filter(query: string, ps: seq<Product>): (r: seq<Product>)
    ensures |r| <= |ps|
    ensures forall p :: p in r <==> p in ps && Kept(query, p)
    decreases |ps|
  {
    if |ps| == 0 then []
    else
      var rest := Filter(query, ps[1..]);
      assert forall p :: p in ps <==> p == ps[0] || p in ps[1..];
      if Kept(query, ps[0]) then [ps[0]] + rest else rest
  }

  /** Filtering a concatenation filters each part: the filter keeps the order of the products
      it keeps. */
  lemma {:induction false} FilterAppend(query: string, a: seq<Product>, b: seq<Product>)
    ensures Filter(query, a + b) == Filter(query, a) + Filter(query, b)
    decreases |a|
  {
    if |a| == 0 {
      assert a + b == b;
    } else {
      assert (a + b)[0] == a[0] && (a + b)[1..] == a[1..] + b;
      FilterAppend(query, a[1..], b);
    }
  }

  /** The filter as the loop over the fetched products runs it. */
  method FilterProducts(query: string, ps: seq<Product>) returns (kept: seq<Product>)
    ensures kept == Filter(query, ps)
  {
    kept := [];
    var i := 0;
    while i < |ps|
      invariant 0 <= i <= |ps|
      invariant kept == Filter(query, ps[..i])
    {
      FilterAppend(query, ps[..i], [ps[i]]);
      assert ps[..i + 1] == ps[..i] + [ps[i]];
      if Kept(query, ps[i]) {
        kept := kept + [ps[i]];
      }
      i := i + 1;
    }
    assert ps[..|ps|] == ps;
  }

  /** `GET /search/:query`, with the products the Admin API returned (or the error it threw). */
  function SearchProductsRoute(query: string, products: Result<seq<Product>, string>): (r: SearchResponse)
    ensures r == Failure(400, QueryRequired, None) <==> AllSpace(query)
    ensures !AllSpace(query) && products.Err? ==> r == Failure(500, SearchFailed, Some(products.error))
    ensures r.Results? <==> !AllSpace(query) && products.Ok? && FormatProducts(Filter(query, products.value)).Ok?
    ensures r.Results? ==>
      && r.query == query
      && r.totalResults == |r.data| == |Filter(query, products.value)|
      && forall i :: 0 <= i < |r.data| ==> FormatProduct(Filter(query, products.value)[i]) == Ok(r.data[i])
    ensures r.Failure? && r.status == 500 ==> r.message == SearchFailed
  {
    TrimEmptyIff(query);
    if query == "" || Trim(query) == "" then Failure(400, QueryRequired, None)
    else
      match products
      case Err(e) => Failure(500, SearchFailed, Some(e))
      case Ok(ps) =>
        match FormatProducts(Filter(query, ps))
        case Err(e) => Failure(500, SearchFailed, Some(e))
        case Ok(data) => Results(query, |data|, data)
  }

  // ---------------------------------------------------------------- properties

  /** The search does not depend on the query's case. */
  lemma QueryCaseIgnored(query: string, p: Product)
    ensures Kept(query, p) <==> Kept(ToLower(query), p)
  {
    ToLowerIdempotent(query);
  }

  /** Nor on the case of the title. */
  lemma TitleCaseIgnored(query: string, p: Product)
    ensures Kept(query, p) <==> Kept(query, p.(title := Some(ToLower(Text(p.title)))))
  {
    ToLowerIdempotent(Text(p.title));
  }

  /** A product is kept exactly when one of the texts searched contains the lower-cased query. */
  lemma KeptIffSomeTextContains(query: string, p: Product)
    ensures Kept(query, p) <==>
      exists i :: 0 <= i < |SearchedTexts(p)| && Includes(SearchedTexts(p)[i], ToLower(query))
  {
    var texts := SearchedTexts(p);
    var term := ToLower(query);
    assert texts[0] == ToLower(Text(p.title)) && texts[1] == ToLower(StripTags(Text(p.bodyHtml)));
    assert texts[2] == ToLower(Text(p.productType)) && texts[3] == ToLower(Text(p.vendor));
    assert texts[4] == ToLower(Text(p.tags)) && texts[5] == IntToString(p.id);
    if SkuMatch(p.variants, term) {
      var j :| 0 <= j < |p.variants| && Includes(ToLower(Text(p.variants[j].sku)), term);
      assert texts[6 + j] == ToLower(Text(p.variants[j].sku));
    }
    if i :| 6 <= i < |texts| && Includes(texts[i], term) {
      assert texts[i] == ToLower(Text(p.variants[i - 6].sku));
      assert SkuMatch(p.variants, term);
    }
  }

  /** A product whose title contains the query, in any case, is in the results. */
  lemma TitleHitKept(query: string, ps: seq<Product>, k: nat)
    requires k < |ps|
    requires Includes(ToLower(Text(ps[k].title)), ToLower(query))
    ensures ps[k] in Filter(query, ps)
  {
  }
}
