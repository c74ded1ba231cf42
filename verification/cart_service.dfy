/** The cart service: the per-customer "current cart" pointer kept in a customer metafield,
    get-or-create, merging a guest cart on login, clearing the pointer, the cart response shape and
    the rule that turns a failed platform answer into the error the service throws. */
module CartService {
  import opened Wrappers
  import opened JsText
  import opened JsNumber
  import opened JsValue
  import opened CustomerService
  import opened CartPlatform

  const CartNamespace := "custom"
  const CartKey := "cart_id"
  const CartMetafieldType := "single_line_text_field"

  // ---------------------------------------------------------------- response shape

  datatype VariantView = VariantView(id: string, title: string, price: Money, image: Option<Image>)
  datatype ProductView = ProductView(id: string, title: string, handle: string, featuredImage: Option<Image>)
  datatype LineItem = LineItem(lineId: string, quantity: nat, variant: VariantView, product: ProductView, lineCost: Money)

  /** The cart as the API answers it. */
  datatype CartView = CartView(
    cartId: string, checkoutUrl: string, createdAt: string, updatedAt: string,
    totalQuantity: nat, items: seq<LineItem>, subtotal: Money, total: Money, totalTax: Option<Money>)

  /** `formatCartLineItem`: a missing variant image or product image becomes `null`. */
  function FormatCartLineItem(l: LineNode): (item: LineItem)
    ensures item.lineId == l.id && item.quantity == l.quantity
    ensures item.variant.id == l.merchandise.id && item.product.id == l.merchandise.product.id
    ensures item.variant.image == l.merchandise.image
    ensures item.product.featuredImage == l.merchandise.product.featuredImage
    ensures item.lineCost == l.cost
  {
    var m := l.merchandise;
    LineItem(l.id, l.quantity,
             VariantView(m.id, m.title, m.price, m.image),
             ProductView(m.product.id, m.product.title, m.product.handle, m.product.featuredImage),
             l.cost)
  }

  /** `lines.edges.map(formatCartLineItem)`. */
  function LineItems(nodes: seq<LineNode>): (r: seq<LineItem>)
    ensures |r| == |nodes|
    decreases |nodes|
  {
    if |nodes| == 0 then [] else [FormatCartLineItem(nodes[0])] + LineItems(nodes[1..])
  }

  lemma {:induction false} LineItemsAt(nodes: seq<LineNode>, k: nat)
    requires k < |nodes|
    ensures LineItems(nodes)[k] == FormatCartLineItem(nodes[k])
    decreases k
  {
    if k > 0 {
      LineItemsAt(nodes[1..], k - 1);
    }
  }

  lemma LineItemsAll(nodes: seq<LineNode>)
    ensures forall i :: 0 <= i < |nodes| ==> LineItems(nodes)[i] == FormatCartLineItem(nodes[i])
  {
    forall i | 0 <= i < |nodes|
      ensures LineItems(nodes)[i] == FormatCartLineItem(nodes[i])
    {
      LineItemsAt(nodes, i);
    }
  }

  lemma {:induction false} LineItemsAppend(a: seq<LineNode>, b: seq<LineNode>)
    ensures LineItems(a + b) == LineItems(a) + LineItems(b)
    decreases |a|
  {
    if |a| == 0 {
      assert a + b == b;
    } else {
      assert (a + b)[1..] == a[1..] + b;
      LineItemsAppend(a[1..], b);
    }
  }

  /** `formatCartResponse`: one item per line, in order; a missing tax amount becomes `null`. */
  function FormatCartResponse(c: CartNode): (v: CartView)
    ensures v.cartId == c.id && v.totalQuantity == c.totalQuantity
    ensures |v.items| == |c.lines|
    ensures forall i :: 0 <= i < |c.lines| ==> v.items[i] == FormatCartLineItem(c.lines[i])
    ensures v.totalTax == c.totalTax && v.subtotal == c.subtotal && v.total == c.total
  {
    LineItemsAll(c.lines);
    CartView(c.id, c.checkoutUrl, c.createdAt, c.updatedAt, c.totalQuantity,
             LineItems(c.lines),
             c.subtotal, c.total, c.totalTax)
  }

  /** Reading a line item back into the platform's line. */
  function LineNodeOf(item: LineItem): LineNode {
    LineNode(item.lineId, item.quantity,
             Variant(item.variant.id, item.variant.title, item.variant.price, item.variant.image,
                     Product(item.product.id, item.product.title, item.product.handle, item.product.featuredImage)),
             item.lineCost)
  }

  function CartNodeOf(v: CartView): CartNode {
    CartNode(v.cartId, v.checkoutUrl, v.createdAt, v.updatedAt,
             seq(|v.items| , i requires 0 <= i < |v.items| => LineNodeOf(v.items[i])),
             v.subtotal, v.total, v.totalTax, v.totalQuantity)
  }

  /** The response shape loses nothing the platform answered (prices aside, which are kept in
      cents here): reading it back gives the platform's cart. */
  lemma FormatCartRoundTrip(c: CartNode)
    ensures CartNodeOf(FormatCartResponse(c)) == c
  {
    var back := CartNodeOf(FormatCartResponse(c));
    assert back.lines == c.lines by {
      forall i | 0 <= i < |c.lines|
        ensures back.lines[i] == c.lines[i]
      {
        assert FormatCartResponse(c).items[i] == FormatCartLineItem(c.lines[i]);
      }
    }
  }

  // ---------------------------------------------------------------- failure rule

  /** `errors[0].message` on an empty `errors` array. */
  const MissingMessage := "Cannot read properties of undefined (reading 'message')"

  /** The rule every storefront call shares: a rejected request throws its message; top-level
      `errors` throw the first message; a non-empty `userErrors` throws its first message;
      otherwise the answered cart (possibly null) is returned. */
  function Settle(b: Body): (r: Result<Option<CartNode>, string>)
    ensures b.Rejected? ==> r == Err(b.message)
    ensures b.Answer? && b.errors.Some? ==> r == Err(if |b.errors.value| > 0 then b.errors.value[0] else MissingMessage)
    ensures b.Answer? && b.errors.None? && |b.userErrors| > 0 ==> r == Err(b.userErrors[0])
    ensures r.Ok? <==> b.Answer? && b.errors.None? && |b.userErrors| == 0
    ensures r.Ok? ==> r.value == b.cart
  {
    match b
    case Rejected(m) => Err(m)
    case Answer(errors, cart, userErrors) =>
      if errors.Some? then Err(if |errors.value| > 0 then errors.value[0] else MissingMessage)
      else if |userErrors| > 0 then Err(userErrors[0])
      else Ok(cart)
  }

  /** A mutation's answer: like `Settle`, and a null cart fails when it is formatted. */
  function Mutated(b: Body): (r: Result<CartView, string>)
    ensures Settle(b).Err? ==> r == Err(Settle(b).error)
    ensures Settle(b) == Ok(None) ==> r == Err(PropError(Null, "lines"))
    ensures Settle(b).Ok? && Settle(b).value.Some? ==> r == Ok(FormatCartResponse(Settle(b).value.value))
  {
    match Settle(b)
    case Err(e) => Err(e)
    case Ok(None) => Err(PropError(Null, "lines"))
    case Ok(Some(c)) => Ok(FormatCartResponse(c))
  }

  /** An operation's effect on the platform together with what it returns or throws. */
  datatype Step<+T> = Step(store: Store, result: Result<T, string>)

  // ---------------------------------------------------------------- cart operations

  /** `getCart`: the cart, `None` (null) when the platform has none under that id. */
  function GetCart(s: Store, faults: Faults, cartId: string): (r: Result<Option<CartView>, string>)
    ensures CartQuery(cartId) !in faults && cartId !in s.carts ==> r == Ok(None)
    ensures CartQuery(cartId) !in faults && cartId in s.carts ==>
      r == Ok(Some(FormatCartResponse(Snapshot(s.currency, s.carts[cartId]))))
    ensures CartQuery(cartId) in faults ==> r.Err?
  {
    match Settle(QueryCart(s, faults, cartId))
    case Err(e) => Err(e)
    case Ok(None) => Ok(None)
    case Ok(Some(c)) => Ok(Some(FormatCartResponse(c)))
  }

  /** `getCart` called with a request value: a value GraphQL does not accept as an ID fails. */
  function GetCartByValue(s: Store, faults: Faults, cartId: Value): (r: Result<Option<CartView>, string>)
    ensures IdText(cartId).None? ==> r == Err(InvalidVariables)
    ensures IdText(cartId).Some? ==> r == GetCart(s, faults, IdText(cartId).value)
  {
    match IdText(cartId)
    case None => Err(InvalidVariables)
    case Some(id) => GetCart(s, faults, id)
  }

  /** `createCart(buyerIdentity)`: `None` is a null buyer identity, otherwise the email and access
      token it carries. */
  function CreateCart(s: Store, faults: Faults, buyer: Option<(Value, Value)>): (r: Step<CartView>)
    ensures CartCreate !in faults ==>
      r.result.Ok? && r.result.value.cartId == CartGid(s.serial) && r.result.value.items == []
      && r.store.serial == s.serial + 1 && r.store.metafields == s.metafields
      && CartGid(s.serial) in r.store.carts
      && r.result.value == FormatCartResponse(Snapshot(r.store.currency, r.store.carts[CartGid(s.serial)]))
    ensures CartCreate in faults ==> r.result.Err? && r.store == s
    ensures Valid(s) ==> Valid(r.store)
  {
    var reply := CartPlatform.CreateCart(s, faults, buyer);
    Step(reply.store, Mutated(reply.body))
  }

  /** One requested item as a `CartLineInput`: the variant id, and the quantity or 1 when it is falsy. */
  function ToLineInput(item: Value): (r: Result<LineInput, string>)
    ensures item.Undefined? || item.Null? <==> r.Err?
    ensures r.Ok? ==> r.value.merchandiseId == Prop(item, "variantId").value
    ensures r.Ok? ==> r.value.quantity == Or(Prop(item, "quantity").value, Num(Finite(1.0)))
  {
    match (Prop(item, "variantId"), Prop(item, "quantity"))
    case (Some(variantId), Some(quantity)) => Ok(LineInput(variantId, Or(quantity, Num(Finite(1.0)))))
    case _ => Err(PropError(item, "variantId"))
  }

  /** `items.map(...)` in `addToCart`: one input per item, in order. */
  function ToLineInputs(items: seq<Value>): (r: Result<seq<LineInput>, string>)
    ensures r.Ok? <==> forall i :: 0 <= i < |items| ==> !items[i].Undefined? && !items[i].Null?
    ensures r.Ok? ==> |r.value| == |items| && forall i :: 0 <= i < |items| ==> Ok(r.value[i]) == ToLineInput(items[i])
    decreases |items|
  {
    if |items| == 0 then Ok([])
    else
      match (ToLineInput(items[0]), ToLineInputs(items[1..]))
      case (Ok(head), Ok(tail)) =>
        assert forall i :: 1 <= i < |items| ==> items[i] == items[1..][i - 1];
        Ok([head] + tail)
      case (Err(e), _) => Err(e)
      case (_, Err(e)) =>
        assert !forall i :: 0 <= i < |items[1..]| ==> !items[1..][i].Undefined? && !items[1..][i].Null?;
        Err(e)
  }

  /** `addToCart(cartId, items)`. */
  function AddToCart(s: Store, faults: Faults, cartId: string, items: seq<Value>): (r: Step<CartView>)
    ensures ToLineInputs(items).Err? ==> r == Step(s, Err(ToLineInputs(items).error))
    ensures ToLineInputs(items).Ok? ==>
      var reply := AddLines(s, faults, cartId, ToLineInputs(items).value);
      r == Step(reply.store, Mutated(reply.body))
    ensures Valid(s) ==> Valid(r.store)
    ensures r.store.metafields == s.metafields
  {
    match ToLineInputs(items)
    case Err(e) => Step(s, Err(e))
    case Ok(lines) =>
      var reply := AddLines(s, faults, cartId, lines);
      Step(reply.store, Mutated(reply.body))
  }

  /** `items.map(...)` in `updateCartItems`: the line id and quantity, as given. */
  function ToLineUpdates(items: seq<Value>): (r: Result<seq<LineUpdate>, string>)
    ensures r.Ok? <==> forall i :: 0 <= i < |items| ==> !items[i].Undefined? && !items[i].Null?
    ensures r.Ok? ==> |r.value| == |items|
    ensures r.Ok? ==> forall i :: 0 <= i < |items| ==>
      r.value[i] == LineUpdate(Prop(items[i], "lineId").value, Prop(items[i], "quantity").value)
    decreases |items|
  {
    if |items| == 0 then Ok([])
    else
      match Prop(items[0], "lineId")
      case None => Err(PropError(items[0], "lineId"))
      case Some(id) =>
        var q := Prop(items[0], "quantity").value;
        match ToLineUpdates(items[1..])
        case Ok(tail) =>
          assert forall i :: 1 <= i < |items| ==> items[i] == items[1..][i - 1];
          Ok([LineUpdate(id, q)] + tail)
        case Err(e) =>
          assert !forall i :: 0 <= i < |items[1..]| ==> !items[1..][i].Undefined? && !items[1..][i].Null?;
          Err(e)
  }

  /** `updateCartItems(cartId, items)`. */
  function UpdateCartItems(s: Store, faults: Faults, cartId: string, items: seq<Value>): (r: Step<CartView>)
    ensures ToLineUpdates(items).Err? ==> r == Step(s, Err(ToLineUpdates(items).error))
    ensures ToLineUpdates(items).Ok? ==>
      var reply := UpdateLines(s, faults, cartId, ToLineUpdates(items).value);
      r == Step(reply.store, Mutated(reply.body))
    ensures Valid(s) ==> Valid(r.store)
    ensures r.store.metafields == s.metafields
  {
    match ToLineUpdates(items)
    case Err(e) => Step(s, Err(e))
    case Ok(updates) =>
      var reply := UpdateLines(s, faults, cartId, updates);
      Step(reply.store, Mutated(reply.body))
  }

  /** `removeFromCart(cartId, lineIds)`. */
  function RemoveFromCart(s: Store, faults: Faults, cartId: string, lineIds: seq<Value>): (r: Step<CartView>)
    ensures Valid(s) ==> Valid(r.store)
    ensures r.store.metafields == s.metafields
    ensures LinesRemove(cartId) in faults ==> r.store == s && r.result.Err?
    ensures var reply := RemoveLines(s, faults, cartId, lineIds);
      r == Step(reply.store, Mutated(reply.body))
  {
    var reply := RemoveLines(s, faults, cartId, lineIds);
    Step(reply.store, Mutated(reply.body))
  }

  /** What `updateCartBuyerIdentity` returns. */
  datatype BuyerUpdateView = BuyerUpdateView(cartId: string, checkoutUrl: string, buyerIdentity: Buyer)

  /** `updateCartBuyerIdentity(cartId, customerAccessToken)`, under the same failure rule. */
  function UpdateCartBuyerIdentity(s: Store, faults: Faults, cartId: Value, token: Value): (r: Step<BuyerUpdateView>)
    ensures Valid(s) ==> Valid(r.store)
    ensures r.result.Ok? ==> IdText(cartId) == Some(r.result.value.cartId)
    ensures r.result.Ok? ==> token.Str? && token.s in s.accessTokens && r.result.value.buyerIdentity == s.accessTokens[token.s]
    ensures r.store == UpdateBuyer(s, faults, cartId, token).0
    ensures var a := UpdateBuyer(s, faults, cartId, token).1;
      && (a.BuyerRejected? ==> r.result == Err(a.message))
      && (a.BuyerBody? && a.errors.Some? ==>
            r.result == Err(if |a.errors.value| > 0 then a.errors.value[0] else MissingMessage))
      && (a.BuyerBody? && a.errors.None? && |a.userErrors| > 0 ==> r.result == Err(a.userErrors[0]))
      && (a.BuyerBody? && a.errors.None? && |a.userErrors| == 0 && a.cart.None? ==> r.result == Err(PropError(Null, "id")))
      && (r.result.Ok? <==> a.BuyerBody? && a.errors.None? && |a.userErrors| == 0 && a.cart.Some?)
  {
    var (s', answer) := UpdateBuyer(s, faults, cartId, token);
    match answer
    case BuyerRejected(m) => Step(s', Err(m))
    case BuyerBody(errors, cart, userErrors) =>
      if errors.Some? then Step(s', Err(if |errors.value| > 0 then errors.value[0] else MissingMessage))
      else if |userErrors| > 0 then Step(s', Err(userErrors[0]))
      else match cart
        case None => Step(s', Err(PropError(Null, "id")))
        case Some((id, url, buyer)) => Step(s', Ok(BuyerUpdateView(id, url, buyer)))
  }

  // ---------------------------------------------------------------- the cart pointer

  predicate IsCartPointer(m: Metafield) {
    m.namespace == Some(CartNamespace) && m.key == CartKey
  }

  /** `metafields.find(...)`: the value of the first `custom`/`cart_id` metafield. */
  function FirstCartPointer(mfs: seq<Metafield>): (r: Option<string>)
    ensures r.None? <==> forall i :: 0 <= i < |mfs| ==> !IsCartPointer(mfs[i])
    ensures r.Some? ==> exists i :: 0 <= i < |mfs| && IsCartPointer(mfs[i]) && mfs[i].value == r.value
                                    && forall j :: 0 <= j < i ==> !IsCartPointer(mfs[j])
    decreases |mfs|
  {
    if |mfs| == 0 then None
    else if IsCartPointer(mfs[0]) then Some(mfs[0].value)
    else
      var rest := FirstCartPointer(mfs[1..]);
      assert forall i :: 1 <= i < |mfs| ==> mfs[i] == mfs[1..][i - 1];
      if rest.Some? then
        assert exists i :: 0 <= i < |mfs[1..]| && IsCartPointer(mfs[1..][i]) && mfs[1..][i].value == rest.value
                           && forall j :: 0 <= j < i ==> !IsCartPointer(mfs[1..][j]);
        var i :| 0 <= i < |mfs[1..]| && IsCartPointer(mfs[1..][i]) && mfs[1..][i].value == rest.value
                 && forall j :: 0 <= j < i ==> !IsCartPointer(mfs[1..][j]);
        assert mfs[i + 1] == mfs[1..][i];
        assert forall j :: 0 <= j < i + 1 ==> !IsCartPointer(mfs[j]) by {
          forall j | 0 <= j < i + 1
            ensures !IsCartPointer(mfs[j])
          {
            if j > 0 {
              assert mfs[j] == mfs[1..][j - 1];
            }
          }
        }
        rest
      else
        rest
  }

  /** `getUserCartId`: the pointer's value, `None` (null) when there is no pointer or the listing
      fails. */
  function GetUserCartId(s: Store, faults: Faults, customer: Option<string>): (r: Option<string>)
    ensures ReadMetafields(s, faults, customer).Err? ==> r.None?
    ensures var mfs := GetCustomerMetafields(ReadMetafields(s, faults, customer));
      r.None? <==> forall i :: 0 <= i < |mfs| ==> !IsCartPointer(mfs[i])
    ensures var mfs := GetCustomerMetafields(ReadMetafields(s, faults, customer));
      r.Some? ==> exists i :: 0 <= i < |mfs| && IsCartPointer(mfs[i]) && mfs[i].value == r.value
                                && forall j :: 0 <= j < i ==> !IsCartPointer(mfs[j])
  {
    FirstCartPointer(GetCustomerMetafields(ReadMetafields(s, faults, customer)))
  }

  /** What a call of the metafield writer throws as the code is wired. */
  const MissingWriter := NotAFunction("updateCustomerMetafield")

  /** `saveUserCartId`: a failed write is swallowed, so it never fails. */
  function SaveUserCartId(w: Wiring, s: Store, faults: Faults, customer: Option<string>, cartId: string): (r: Store)
    ensures w.AsWritten? ==> r == s
    ensures w.Intended? ==>
      match WriteMetafield(s, faults, customer, CartNamespace, CartKey, cartId, CartMetafieldType)
      case Ok(s') => r == s'
      case Err(_) => r == s
    ensures r.carts == s.carts
  {
    match w
    case AsWritten => s
    case Intended =>
      match WriteMetafield(s, faults, customer, CartNamespace, CartKey, cartId, CartMetafieldType)
      case Ok(s') => s'
      case Err(_) => s
  }

  /** Saving `value` as the pointer makes it the first pointer found. */
  lemma PointerAfterUpsert(mfs: seq<Metafield>, value: string, freshId: nat)
    ensures FirstCartPointer(Upsert(mfs, CartNamespace, CartKey, value, CartMetafieldType, freshId)) == Some(value)
  {
    var r := Upsert(mfs, CartNamespace, CartKey, value, CartMetafieldType, freshId);
    UpsertPresent(mfs, CartNamespace, CartKey, value, CartMetafieldType, freshId);
    assert CountCarrying(r, CartNamespace, CartKey) != 0;
  }

  /** The email as `createCart`'s buyer identity: `{ email }` when truthy, otherwise null. */
  function EmailBuyer(email: Value): Option<(Value, Value)> {
    if Truthy(email) then Some((email, Undefined)) else None
  }

  /** Creating a cart and re-pointing the customer at it. The new cart is returned whether or not
      the pointer could be saved. */
  function CreateAndPoint(w: Wiring, s: Store, faults: Faults, customer: Option<string>, email: Value): (r: Step<CartView>)
    ensures Valid(s) ==> Valid(r.store)
    ensures r.store.catalogue == s.catalogue && r.store.currency == s.currency
    ensures CartCreate in faults ==> r.store == s && r.result.Err?
    ensures CartCreate !in faults ==>
      && r.result.Ok? && r.result.value.cartId == CartGid(s.serial) && r.result.value.items == []
      && CartGid(s.serial) in r.store.carts
      && r.store.carts == s.carts[CartGid(s.serial) := r.store.carts[CartGid(s.serial)]]
      && r.result.value == FormatCartResponse(Snapshot(s.currency, r.store.carts[CartGid(s.serial)]))
      && r.store.serial >= s.serial + 1
    ensures w.AsWritten? ==> r.store.metafields == s.metafields
    ensures w.Intended? && CartCreate !in faults && customer.Some? && customer.value in s.metafields
            && MetafieldWrite(customer.value) !in faults ==>
      customer.value in r.store.metafields
      && r.store.metafields == s.metafields[customer.value := r.store.metafields[customer.value]]
      && FirstCartPointer(r.store.metafields[customer.value]) == Some(CartGid(s.serial))
    ensures customer.Some? && MetafieldWrite(customer.value) in faults ==> r.store.metafields == s.metafields
  {
    var created := CreateCart(s, faults, EmailBuyer(email));
    match created.result
    case Err(e) => Step(created.store, Err(e))
    case Ok(cart) =>
      var s' := SaveUserCartId(w, created.store, faults, customer, cart.cartId);
      assert Valid(created.store) ==> Valid(s') by {
        if w.Intended? && WriteMetafield(created.store, faults, customer, CartNamespace, CartKey, cart.cartId, CartMetafieldType).Ok? {
          assert s'.carts == created.store.carts && s'.catalogue == created.store.catalogue;
        }
      }
      if w.Intended? && customer.Some? && customer.value in created.store.metafields then
        PointerAfterUpsert(created.store.metafields[customer.value], cart.cartId, created.store.serial);
        Step(s', Ok(cart))
      else
        Step(s', Ok(cart))
  }

  /** `getOrCreateUserCart(customerId, email)`, under either wiring. The customer is named by its
      id text; `None` is an id whose text this model does not produce, which names no customer. */
  function GetOrCreateUserCartWith(w: Wiring, s: Store, faults: Faults, customer: Option<string>, email: Value): (r: Step<CartView>)
    ensures Valid(s) ==> Valid(r.store)
    ensures r.store.catalogue == s.catalogue && r.store.currency == s.currency
    ensures w.AsWritten? ==> r.store.metafields == s.metafields
    // a non-empty pointer to a cart that still exists: that cart, nothing changes
    ensures var p := GetUserCartId(s, faults, customer);
      p.Some? && p.value != "" && CartQuery(p.value) !in faults && p.value in s.carts ==>
        r == Step(s, Ok(FormatCartResponse(Snapshot(s.currency, s.carts[p.value]))))
    // no pointer, an empty one, or one to a vanished cart: a new cart
    ensures var p := GetUserCartId(s, faults, customer);
      (p.None? || p.value == "" || (CartQuery(p.value) !in faults && p.value !in s.carts)) ==>
        r == CreateAndPoint(w, s, faults, customer, email)
    // whatever it returns is the customer's cart as stored
    ensures Valid(s) && r.result.Ok? ==> r.result.value.cartId in r.store.carts
    ensures Valid(s) && r.result.Ok? && r.result.value.cartId in r.store.carts ==>
      r.result.value == FormatCartResponse(Snapshot(r.store.currency, r.store.carts[r.result.value.cartId]))
    // a failed lookup of the pointed-to cart fails the call
    ensures var p := GetUserCartId(s, faults, customer);
      p.Some? && p.value != "" && CartQuery(p.value) in faults ==> r.store == s && r.result.Err?
  {
    var pointer := GetUserCartId(s, faults, customer);
    if pointer.Some? && pointer.value != "" then
      match GetCart(s, faults, pointer.value)
      case Err(e) => Step(s, Err(e))
      case Ok(Some(cart)) => Step(s, Ok(cart))
      case Ok(None) => CreateAndPoint(w, s, faults, customer, email)
    else
      CreateAndPoint(w, s, faults, customer, email)
  }

  /** `clearUserCart`: points the customer at the empty string. */
  function ClearUserCartWith(w: Wiring, s: Store, faults: Faults, customer: Option<string>): (r: Step<bool>)
    ensures w.AsWritten? ==> r == Step(s, Err(MissingWriter))
    ensures r.result.Ok? ==> r.result.value
    ensures r.store.carts == s.carts
  {
    match w
    case AsWritten => Step(s, Err(MissingWriter))
    case Intended =>
      match WriteMetafield(s, faults, customer, CartNamespace, CartKey, "", CartMetafieldType)
      case Ok(s') => Step(s', Ok(true))
      case Err(e) => Step(s, Err(e))
  }

  // ---------------------------------------------------------------- merge on login

  datatype MergeResult = MergeResult(cart: CartView, merged: bool, itemsMerged: Option<nat>, message: string)

  const NoGuestItems := "No guest cart items to merge"
  const AlreadyUsers := "Guest cart is already the user's cart"

  function MergedMessage(n: nat): string {
    "Successfully merged " + NatToString(n) + " item(s) from guest cart"
  }

  /** The `{ variantId, quantity }` item built from each guest line. */
  function ItemOf(item: LineItem): (v: Value)
    ensures v.Obj? && Prop(v, "variantId") == Some(Str(item.variant.id))
    ensures Prop(v, "quantity") == Some(Num(Finite(item.quantity as real)))
  {
    Obj(map["variantId" := Str(item.variant.id), "quantity" := Num(Finite(item.quantity as real))])
  }

  /** The part of `mergeCartsOnLogin` after both carts are known: skip an absent or empty guest
      cart, then a guest cart that is the user's own, otherwise add every guest line to the user's
      cart. */
  function MergeInto(s: Store, faults: Faults, userCart: CartView, guestCart: Option<CartView>,
                     guestCartId: Value): (r: Step<MergeResult>)
    ensures Valid(s) ==> Valid(r.store)
    ensures r.store.catalogue == s.catalogue && r.store.currency == s.currency
    ensures guestCart.None? || |guestCart.value.items| == 0 ==>
      r == Step(s, Ok(MergeResult(userCart, false, None, NoGuestItems)))
    ensures guestCart.Some? && |guestCart.value.items| > 0 && StrictEquals(Str(userCart.cartId), guestCartId) ==>
      r == Step(s, Ok(MergeResult(userCart, false, None, AlreadyUsers)))
    ensures r.result.Ok? && r.result.value.merged ==>
      && guestCart.Some? && |guestCart.value.items| > 0
      && r.result.value.itemsMerged == Some(|guestCart.value.items|)
      && r.result.value.message == MergedMessage(|guestCart.value.items|)
    ensures r.result.Ok? && !r.result.value.merged ==> r.result.value.itemsMerged.None? && r.store == s
  {
    if guestCart.None? || |guestCart.value.items| == 0 then
      Step(s, Ok(MergeResult(userCart, false, None, NoGuestItems)))
    else if StrictEquals(Str(userCart.cartId), guestCartId) then
      Step(s, Ok(MergeResult(userCart, false, None, AlreadyUsers)))
    else
      var items := guestCart.value.items;
      var added := AddToCart(s, faults, userCart.cartId, GuestItems(items));
      match added.result
      case Err(e) => Step(added.store, Err(e))
      case Ok(merged) => Step(added.store, Ok(MergeResult(merged, true, Some(|items|), MergedMessage(|items|))))
  }

  /** `guestCart.items.map(...)`: one `{ variantId, quantity }` item per guest line. */
  function GuestItems(items: seq<LineItem>): (r: seq<Value>)
    ensures |r| == |items| && forall i :: 0 <= i < |items| ==> r[i] == ItemOf(items[i])
  {
    seq(|items|, i requires 0 <= i < |items| => ItemOf(items[i]))
  }

  /** `mergeCartsOnLogin(customerId, guestCartId, email)`. */
  function MergeCartsOnLoginWith(w: Wiring, s: Store, faults: Faults, customer: Option<string>,
                                 guestCartId: Value, email: Value): (r: Step<MergeResult>)
    ensures Valid(s) ==> Valid(r.store)
    ensures r.store.catalogue == s.catalogue && r.store.currency == s.currency
    // a failed guest lookup fails first, before the user's cart is touched
    ensures Truthy(guestCartId) && GetCartByValue(s, faults, guestCartId).Err? ==>
      r == Step(s, Err(GetCartByValue(s, faults, guestCartId).error))
    // then the user's cart is fetched or created, whatever the guest cart holds
    ensures (!Truthy(guestCartId) || GetCartByValue(s, faults, guestCartId).Ok?) ==>
      var guest := if Truthy(guestCartId) then GetCartByValue(s, faults, guestCartId).value else None;
      var user := GetOrCreateUserCartWith(w, s, faults, customer, email);
      && (user.result.Err? ==> r == Step(user.store, Err(user.result.error)))
      && (user.result.Ok? ==> r == MergeInto(user.store, faults, user.result.value, guest, guestCartId))
  {
    var guest := if Truthy(guestCartId) then GetCartByValue(s, faults, guestCartId) else Ok(None);
    match guest
    case Err(e) => Step(s, Err(e))
    case Ok(guestCart) =>
      var user := GetOrCreateUserCartWith(w, s, faults, customer, email);
      match user.result
      case Err(e) => Step(user.store, Err(e))
      case Ok(userCart) => MergeInto(user.store, faults, userCart, guestCart, guestCartId)
  }
}
