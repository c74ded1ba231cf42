/** Product shaping shared by the collection and search routes: the stock rule, the inventory
    sum, the price and compare-at ranges, tags, selected options, the variant image and the
    stripped and shortened descriptions. Prices are integer cents; turning cents into the
    two-decimal text of the answer is left abstract. */
module Catalogue {
  import opened Wrappers
  import opened JsText

  /** A price field as the platform sends it (a decimal string): absent or empty, a string
      `parseFloat` cannot read, or a number of cents. */
  datatype Price = Missing | Unparseable | Cents(cents: int)

  datatype Variant = Variant(
    id: int,
    sku: Option<string>,
    inventory: Option<int>,
    policy: Option<string>,
    price: Price,
    compareAt: Price,
    option1: Option<string>,
    option2: Option<string>,
    option3: Option<string>,
    imageId: Option<int>)

  datatype Image = Image(id: int, src: Option<string>, alt: Option<string>)

  datatype ProductOption = ProductOption(name: Option<string>)

  /** A product as the Admin API returns it. An absent `variants` array is the empty one: every
      use of it treats the two alike. */
  datatype Product = Product(
    id: int,
    title: Option<string>,
    bodyHtml: Option<string>,
    productType: Option<string>,
    vendor: Option<string>,
    tags: Option<string>,
    variants: seq<Variant>,
    images: Option<seq<Image>>,
    options: Option<seq<ProductOption>>)

  datatype StockStatus = InStock | Orderable | OutOfStock

  datatype Selected = Selected(name: string, value: string)

  datatype VariantImage = VariantImage(id: int, url: Option<string>, altText: Option<string>)

  /** A shaped variant. `price` is `None` for NaN; `compareAt` is `None` for `null` and
      `Some(None)` for NaN. */
  datatype VariantView = VariantView(
    gid: string,
    available: bool,
    stock: StockStatus,
    inventory: int,
    price: Option<int>,
    compareAt: Option<Option<int>>,
    selectedOptions: seq<Selected>,
    image: Option<VariantImage>)

  /** A `{min, max}` pair of amounts, in cents. */
  datatype Range = Range(min: int, max: int)

  datatype ProductView = ProductView(
    gid: string,
    description: Option<string>,
    tags: seq<string>,
    available: bool,
    stock: StockStatus,
    totalInventory: int,
    priceRange: Range,
    compareAtRange: Range,
    variants: seq<VariantView>,
    seoDescription: Option<string>)

  /** How many characters of the stripped description the SEO description keeps. */
  const SeoLength: nat := 160

  /** The separator `tags` is split on. */
  const TagSeparator := ", "

  // ---------------------------------------------------------------- text

  /** `x ? f(x) : null` on an optional string: the empty string is falsy as well. */
  predicate Given(s: Option<string>) {
    s.Some? && s.value != ""
  }

  /** `body_html ? body_html.replace(/<[^>]*>/g, '') : null`. */
  function Description(body: Option<string>): (r: Option<string>)
    ensures r.Some? <==> Given(body)
    ensures r.Some? ==> NoTagSpan(r.value) && |r.value| <= |body.value|
    ensures r.Some? ==> r.value == StripTags(body.value)
  {
    if Given(body) then Some(StripTags(body.value)) else None
  }

  /** The SEO description: the stripped description cut to its first 160 characters. */
  function SeoDescription(body: Option<string>): (r: Option<string>)
    ensures r.Some? <==> Given(body)
    ensures r.Some? ==> |r.value| <= SeoLength
  {
    if Given(body) then Some(Prefix(StripTags(body.value), SeoLength)) else None
  }

  /** `tags ? tags.split(', ') : []`. */
  function Tags(tags: Option<string>): (r: seq<string>)
    ensures |r| == 0 <==> !Given(tags)
  {
    if Given(tags) then Split(tags.value, TagSeparator) else []
  }

  /** `"gid://shopify/<kind>/" + id`. */
  function Gid(kind: string, id: int): string {
    "gid://shopify/" + kind + "/" + IntToString(id)
  }

  // ---------------------------------------------------------------- stock

  /** `inventory_quantity || 0`. */
  function Inventory(v: Variant): int {
    v.inventory.GetOr(0)
  }

  /** `inventory_policy === 'continue'`: the variant may be sold when none is on hand. */
  predicate Backorders(v: Variant) {
    v.policy == Some("continue")
  }

  /** The stock rule, for a product and for a variant alike: stock on hand is `in_stock`;
      otherwise a backorder policy makes it `orderable`; otherwise it is `out_of_stock`. */
  function StockOf(inventory: int, backorder: bool): (r: StockStatus)
    ensures r.InStock? <==> inventory > 0
    ensures r.Orderable? <==> inventory <= 0 && backorder
    ensures r.OutOfStock? <==> inventory <= 0 && !backorder
  {
    if inventory > 0 || backorder then
      if inventory > 0 then InStock else Orderable
    else
      OutOfStock
  }

  /** The sum of the variants' inventories, a missing one counting 0. */
  function TotalInventory(vs: seq<Variant>): (t: int)
    ensures |vs| == 0 ==> t == 0
    ensures (forall i :: 0 <= i < |vs| ==> Inventory(vs[i]) >= 0) ==>
      forall i :: 0 <= i < |vs| ==> Inventory(vs[i]) <= t
    decreases |vs|
  {
    if |vs| == 0 then 0 else Inventory(vs[0]) + TotalInventory(vs[1..])
  }

  lemma {:induction false} TotalInventoryAppend(a: seq<Variant>, b: seq<Variant>)
    ensures TotalInventory(a + b) == TotalInventory(a) + TotalInventory(b)
    decreases |a|
  {
    if |a| > 0 {
      assert (a + b)[0] == a[0] && (a + b)[1..] == a[1..] + b;
      TotalInventoryAppend(a[1..], b);
    } else {
      assert a + b == b;
    }
  }

  /** The `reduce` that adds the inventories up from the left equals the sum. */
  method SumInventory(vs: seq<Variant>) returns (total: int)
    ensures total == TotalInventory(vs)
  {
    total := 0;
    var i := 0;
    while i < |vs|
      invariant 0 <= i <= |vs|
      invariant total == TotalInventory(vs[..i])
    {
      TotalInventoryAppend(vs[..i], [vs[i]]);
      assert vs[..i + 1] == vs[..i] + [vs[i]];
      total := total + Inventory(vs[i]);
      i := i + 1;
    }
    assert vs[..|vs|] == vs;
  }

  /** `variants.some(v => v.inventory_policy === 'continue')`. */
  predicate AllowsBackorder(vs: seq<Variant>) {
    exists i :: 0 <= i < |vs| && Backorders(vs[i])
  }

  /** The product's stock status. */
  function ProductStock(vs: seq<Variant>): (r: StockStatus)
    ensures r.InStock? <==> TotalInventory(vs) > 0
    ensures r.Orderable? <==> TotalInventory(vs) <= 0 && AllowsBackorder(vs)
    ensures r.OutOfStock? <==> TotalInventory(vs) <= 0 && !AllowsBackorder(vs)
  {
    StockOf(TotalInventory(vs), AllowsBackorder(vs))
  }

  // ---------------------------------------------------------------- prices

  function MinOf(s: seq<int>): (m: int)
    requires |s| > 0
    ensures m in s && forall x :: x in s ==> m <= x
    decreases |s|
  {
    if |s| == 1 then s[0]
    else
      var rest := MinOf(s[1..]);
      assert forall x :: x in s ==> x == s[0] || x in s[1..];
      if s[0] <= rest then s[0] else rest
  }

  function MaxOf(s: seq<int>): (m: int)
    requires |s| > 0
    ensures m in s && forall x :: x in s ==> x <= m
    decreases |s|
  {
    if |s| == 1 then s[0]
    else
      var rest := MaxOf(s[1..]);
      assert forall x :: x in s ==> x == s[0] || x in s[1..];
      if s[0] >= rest then s[0] else rest
  }

  /** The readable, non-negative prices, in variant order. */
  function Prices(vs: seq<Variant>): (r: seq<int>)
    ensures forall x :: x in r <==> exists i :: 0 <= i < |vs| && vs[i].price == Cents(x) && x >= 0
    decreases |vs|
  {
    if |vs| == 0 then []
    else
      var rest := Prices(vs[1..]);
      assert forall i :: 1 <= i < |vs| ==> vs[i] == vs[1..][i - 1];
      assert forall x :: (exists i :: 0 <= i < |vs[1..]| && vs[1..][i].price == Cents(x) && x >= 0) ==>
        exists i :: 0 <= i < |vs| && vs[i].price == Cents(x) && x >= 0;
      match vs[0].price
      case Cents(c) => if c >= 0 then [c] + rest else rest
      case _ => rest
  }

  /** The positive compare-at prices, in variant order (an unreadable one counts 0). */
  function ComparePrices(vs: seq<Variant>): (r: seq<int>)
    ensures forall x :: x in r <==> exists i :: 0 <= i < |vs| && vs[i].compareAt == Cents(x) && x > 0
    decreases |vs|
  {
    if |vs| == 0 then []
    else
      var rest := ComparePrices(vs[1..]);
      assert forall i :: 1 <= i < |vs| ==> vs[i] == vs[1..][i - 1];
      assert forall x :: (exists i :: 0 <= i < |vs[1..]| && vs[1..][i].compareAt == Cents(x) && x > 0) ==>
        exists i :: 0 <= i < |vs| && vs[i].compareAt == Cents(x) && x > 0;
      match vs[0].compareAt
      case Cents(c) => if c > 0 then [c] + rest else rest
      case _ => rest
  }

  /** The lowest and highest price, or zero for both when there is none. */
  function PriceRange(vs: seq<Variant>): (r: Range)
    ensures |Prices(vs)| == 0 ==> r == Range(0, 0)
    ensures |Prices(vs)| > 0 ==> r.min in Prices(vs) && r.max in Prices(vs)
    ensures forall x :: x in Prices(vs) ==> r.min <= x <= r.max
  {
    var ps := Prices(vs);
    if |ps| > 0 then Range(MinOf(ps), MaxOf(ps)) else Range(0, 0)
  }

  /** The compare-at range, falling back to the price range when no compare-at price is
      positive. */
  function CompareAtRange(vs: seq<Variant>): (r: Range)
    ensures |ComparePrices(vs)| == 0 ==> r == PriceRange(vs)
    ensures |ComparePrices(vs)| > 0 ==> r.min in ComparePrices(vs) && r.max in ComparePrices(vs)
    ensures forall x :: x in ComparePrices(vs) ==> r.min <= x <= r.max
  {
    var cs := ComparePrices(vs);
    if |cs| > 0 then Range(MinOf(cs), MaxOf(cs)) else PriceRange(vs)
  }

  /** `parseFloat(price || 0)`: an absent price is 0 and an unreadable one NaN. */
  function VariantPrice(p: Price): (r: Option<int>)
    ensures r.None? <==> p.Unparseable?
    ensures p.Missing? ==> r == Some(0)
    ensures p.Cents? ==> r == Some(p.cents)
  {
    match p
    case Missing => Some(0)
    case Unparseable => None
    case Cents(c) => Some(c)
  }

  /** `compare_at_price ? parseFloat(compare_at_price) : null`. */
  function VariantCompareAt(p: Price): (r: Option<Option<int>>)
    ensures r.None? <==> p.Missing?
  {
    match p
    case Missing => None
    case Unparseable => Some(None)
    case Cents(c) => Some(Some(c))
  }

  // ---------------------------------------------------------------- options and images

  /** `product.options[i]?.name || "Option <i+1>"`: reading index `i` of a missing options
      array throws. */
  function OptionName(options: Option<seq<ProductOption>>, i: nat): (r: Result<string, string>)
    ensures r.Err? <==> options.None?
    ensures r.Ok? && i < |options.value| && Given(options.value[i].name) ==> r.value == options.value[i].name.value
    ensures r.Ok? && !(i < |options.value| && Given(options.value[i].name)) ==> r.value == "Option " + NatToString(i + 1)
  {
    match options
    case None => Err("Cannot read properties of undefined (reading '" + NatToString(i) + "')")
    case Some(os) =>
      if i < |os| && Given(os[i].name) then Ok(os[i].name.value) else Ok("Option " + NatToString(i + 1))
  }

  /** One entry of the three-element array: the option, or `null` when its value is falsy. */
  function Slot(options: Option<seq<ProductOption>>, i: nat, value: Option<string>): Result<seq<Selected>, string> {
    if !Given(value) then Ok([])
    else
      match OptionName(options, i)
      case Ok(name) => Ok([Selected(name, value.value)])
      case Err(e) => Err(e)
  }

  /** The variant's option values that are given, in order. */
  function GivenOptions(v: Variant): seq<string> {
    (if Given(v.option1) then [v.option1.value] else [])
    + (if Given(v.option2) then [v.option2.value] else [])
    + (if Given(v.option3) then [v.option3.value] else [])
  }

  /** `selectedOptions`: the given options among `option1..3`, each named by the product
      option at its position. The array literal is evaluated left to right, so the first given
      option throws when the product has no options array. */
  function SelectedOptions(v: Variant, options: Option<seq<ProductOption>>): (r: Result<seq<Selected>, string>)
    ensures r.Err? <==> options.None? && |GivenOptions(v)| > 0
    ensures r.Ok? ==> |r.value| == |GivenOptions(v)|
    ensures r.Ok? ==> forall k :: 0 <= k < |r.value| ==> r.value[k].value == GivenOptions(v)[k] && r.value[k].name != ""
  {
    if !(Given(v.option1) || Given(v.option2) || Given(v.option3)) then Ok([])
    else
      match Slot(options, 0, v.option1)
      case Err(e) => Err(e)
      case Ok(a) =>
        match Slot(options, 1, v.option2)
        case Err(e) => Err(e)
        case Ok(b) =>
          match Slot(options, 2, v.option3)
          case Err(e) => Err(e)
          case Ok(c) => Ok(a + b + c)
  }

  /** `images.find(img => img.id === id)`. */
  function FindImage(images: seq<Image>, id: int): (r: Option<Image>)
    ensures r.Some? ==> exists k :: 0 <= k < |images| && images[k] == r.value && r.value.id == id
                                     && forall j :: 0 <= j < k ==> images[j].id != id
    ensures r.None? <==> forall j :: 0 <= j < |images| ==> images[j].id != id
    decreases |images|
  {
    if |images| == 0 then None
    else if images[0].id == id then Some(images[0])
    else
      var rest := FindImage(images[1..], id);
      assert forall j :: 1 <= j < |images| ==> images[j] == images[1..][j - 1];
      rest
  }

  /** `image_id && images ? {id, url, altText} : null`: the url and alt text of the first image
      with that id, `undefined` when there is none. */
  function VariantImageOf(v: Variant, images: Option<seq<Image>>): (r: Option<VariantImage>)
    ensures r.Some? <==> v.imageId.Some? && v.imageId.value != 0 && images.Some?
  {
    if v.imageId.Some? && v.imageId.value != 0 && images.Some? then
      var found := FindImage(images.value, v.imageId.value);
      Some(VariantImage(v.imageId.value,
                        if found.Some? then found.value.src else None,
                        if found.Some? then found.value.alt else None))
    else
      None
  }

  // ---------------------------------------------------------------- shaping

  /** `xs.map(f)` where `f` may throw: the first element that throws decides. */
  function MapAll<A, B>(xs: seq<A>, f: A -> Result<B, string>): (r: Result<seq<B>, string>)
    ensures r.Ok? <==> forall i :: 0 <= i < |xs| ==> f(xs[i]).Ok?
    ensures r.Ok? ==> |r.value| == |xs| && forall i :: 0 <= i < |xs| ==> f(xs[i]) == Ok(r.value[i])
    ensures r.Err? ==> exists k :: 0 <= k < |xs| && f(xs[k]) == Err(r.error)
                                   && forall j :: 0 <= j < k ==> f(xs[j]).Ok?
    decreases |xs|
  {
    if |xs| == 0 then Ok([])
    else
      match f(xs[0])
      case Err(e) => Err(e)
      case Ok(head) =>
        var rest := MapAll(xs[1..], f);
        assert forall i :: 1 <= i < |xs| ==> xs[i] == xs[1..][i - 1];
        match rest
        case Err(e) => Err(e)
        case Ok(tail) => Ok([head] + tail)
  }

  /** One variant of a product, shaped; only its selected options can throw. */
  function FormatVariant(p: Product, v: Variant): (r: Result<VariantView, string>)
    ensures r.Ok? <==> SelectedOptions(v, p.options).Ok?
    ensures r.Ok? ==> r.value.stock == StockOf(Inventory(v), Backorders(v))
    ensures r.Ok? ==> (r.value.available <==> !r.value.stock.OutOfStock?)
    ensures r.Ok? ==> r.value.inventory == Inventory(v)
  {
    match SelectedOptions(v, p.options)
    case Err(e) => Err(e)
    case Ok(selected) =>
      var stock := StockOf(Inventory(v), Backorders(v));
      Ok(VariantView(Gid("ProductVariant", v.id), !stock.OutOfStock?, stock, Inventory(v),
                     VariantPrice(v.price), VariantCompareAt(v.compareAt), selected, VariantImageOf(v, p.images)))
  }

  /** One product, shaped as both the collection and the search route answer it. */
  function FormatProduct(p: Product): (r: Result<ProductView, string>)
    ensures r.Ok? <==> forall i :: 0 <= i < |p.variants| ==> FormatVariant(p, p.variants[i]).Ok?
    ensures r.Ok? ==> r.value.stock == ProductStock(p.variants)
    ensures r.Ok? ==> (r.value.available <==> !r.value.stock.OutOfStock?)
    ensures r.Ok? ==> r.value.totalInventory == TotalInventory(p.variants)
    ensures r.Ok? ==> r.value.tags == Tags(p.tags)
    ensures r.Ok? ==> r.value.description == Description(p.bodyHtml) && r.value.seoDescription == SeoDescription(p.bodyHtml)
    ensures r.Ok? ==> r.value.priceRange == PriceRange(p.variants) && r.value.compareAtRange == CompareAtRange(p.variants)
    ensures r.Ok? ==> |r.value.variants| == |p.variants|
  {
    match MapAll(p.variants, v => FormatVariant(p, v))
    case Err(e) => Err(e)
    case Ok(variants) =>
      var stock := ProductStock(p.variants);
      Ok(ProductView(Gid("Product", p.id), Description(p.bodyHtml), Tags(p.tags), !stock.OutOfStock?, stock,
                     TotalInventory(p.variants), PriceRange(p.variants), CompareAtRange(p.variants), variants,
                     SeoDescription(p.bodyHtml)))
  }

  /** Every product of a listing, shaped in order. */
  function FormatProducts(ps: seq<Product>): Result<seq<ProductView>, string> {
    MapAll(ps, FormatProduct)
  }

  // ---------------------------------------------------------------- properties

  /** With no variant oversold (no negative inventory), a product is available exactly when
      one of its variants is. */
  lemma {:induction false} AvailableIffSomeVariant(vs: seq<Variant>)
    requires forall i :: 0 <= i < |vs| ==> Inventory(vs[i]) >= 0
    ensures !ProductStock(vs).OutOfStock? <==>
      exists i :: 0 <= i < |vs| && !StockOf(Inventory(vs[i]), Backorders(vs[i])).OutOfStock?
    decreases |vs|
  {
    if |vs| > 0 {
      var rest := vs[1..];
      assert forall i :: 1 <= i < |vs| ==> vs[i] == rest[i - 1];
      AvailableIffSomeVariant(rest);
      NonNegativeTotal(rest);
      assert AllowsBackorder(vs) <==> Backorders(vs[0]) || AllowsBackorder(rest);
    }
  }

  lemma {:induction false} NonNegativeTotal(vs: seq<Variant>)
    requires forall i :: 0 <= i < |vs| ==> Inventory(vs[i]) >= 0
    ensures TotalInventory(vs) >= 0
    ensures TotalInventory(vs) == 0 <==> forall i :: 0 <= i < |vs| ==> Inventory(vs[i]) == 0
    decreases |vs|
  {
    if |vs| > 0 {
      assert forall i :: 1 <= i < |vs| ==> vs[i] == vs[1..][i - 1];
      NonNegativeTotal(vs[1..]);
    }
  }

  /** An illustration of the stock rule on a total rather than per variant: one variant with 5
      on hand and one at -10, neither taking backorders, make the product out of stock while the
      first variant is in stock. */
  lemma OversoldHidesStock(a: Variant, b: Variant)
    requires a.inventory == Some(5) && b.inventory == Some(-10)
    requires !Backorders(a) && !Backorders(b)
    ensures ProductStock([a, b]) == OutOfStock
    ensures StockOf(Inventory(a), Backorders(a)) == InStock
  {
    assert [a, b][1..] == [b];
    assert [b][1..] == [];
    assert TotalInventory([b]) == -10;
    assert TotalInventory([a, b]) == -5;
    assert !AllowsBackorder([a, b]);
  }

  /** Joining the tags with ", " gives back the tag string, and no tag holds the separator. */
  lemma TagsRoundTrip(tags: Option<string>)
    ensures Given(tags) ==> Join(Tags(tags), TagSeparator) == tags.value
    ensures forall k :: 0 <= k < |Tags(tags)| ==> !Includes(Tags(tags)[k], TagSeparator)
  {
    if Given(tags) {
      SplitJoin(tags.value, TagSeparator);
      SplitPiecesFree(tags.value, TagSeparator);
    }
  }

  /** The SEO description is the description's first 160 characters, free of tags. */
  lemma SeoIsDescriptionPrefix(body: Option<string>)
    ensures SeoDescription(body).Some? <==> Description(body).Some?
    ensures SeoDescription(body).Some? ==>
      && StartsWith(Description(body).value, SeoDescription(body).value)
      && |SeoDescription(body).value| == (if |Description(body).value| <= SeoLength then |Description(body).value| else SeoLength)
      && NoTagSpan(SeoDescription(body).value)
  {
    if Given(body) {
      var d := StripTags(body.value);
      var s := Prefix(d, SeoLength);
      assert NoTagSpan(s) by {
        forall i, j | 0 <= i < j < |s| && s[i] == '<' ensures s[j] != '>' {
          assert s[i] == d[i] && s[j] == d[j];
        }
      }
    }
  }

  /** Stripping a description again changes nothing. */
  lemma DescriptionStable(body: Option<string>)
    ensures Description(body).Some? && Given(Description(body)) ==> Description(Description(body)) == Description(body)
  {
    if Given(body) {
      StripTagsIdempotent(body.value);
    }
  }

  /** Without a positive compare-at price the compare-at range is the price range; with one,
      it lies within the positive compare-at prices. */
  lemma CompareAtFallback(vs: seq<Variant>)
    ensures (forall i :: 0 <= i < |vs| ==> !(vs[i].compareAt.Cents? && vs[i].compareAt.cents > 0)) ==>
      CompareAtRange(vs) == PriceRange(vs)
    ensures (exists i :: 0 <= i < |vs| && vs[i].compareAt.Cents? && vs[i].compareAt.cents > 0) ==>
      0 < CompareAtRange(vs).min <= CompareAtRange(vs).max
  {
    var cs := ComparePrices(vs);
    if |cs| > 0 {
      assert cs[0] in cs;
    }
  }
}
