/** The cart routes: how each one validates its request, which cart operations it then performs
    and in what order, and the HTTP status and JSON body it answers with. A route that throws
    (a TypeError while validating, or an error of the cart service) answers 500 with the route's
    own failure message and the thrown message. */
module CartRoutes {
  import opened Wrappers
  import opened JsText
  import opened JsNumber
  import opened JsValue
  import opened CartPlatform
  import opened CartService
  import opened Validation
  import CartSession

  // ---------------------------------------------------------------- responses

  /** The JSON a route answers: `Failure` is `{ success: false, message, error? }`, the others
      carry `success: true`. */
  datatype Response =
    | Failure(status: nat, message: string, error: Option<string>)
    | CartReply(status: nat, note: Option<string>, data: CartView)
    | MergeReply(message: string, merged: bool, itemsMerged: nat, data: CartView)
    | CheckoutReply(checkoutUrl: string, buyerIdentity: Option<Buyer>)

  function StatusOf(r: Response): nat {
    match r
    case Failure(status, _, _) => status
    case CartReply(status, _, _) => status
    case MergeReply(_, _, _, _) => 200
    case CheckoutReply(_, _) => 200
  }

  /** The platform after the route, and its answer. */
  datatype Outcome = Outcome(store: Store, response: Response)

  const UserIdRequired := "userId is required"
  const InvalidUserId := "Invalid user ID provided"
  const ItemsRequired := "Items array is required and must not be empty"
  const VariantRequired := "Each item must have a variantId"
  const LineIdRequired := "Each item must have a lineId"
  const QuantityNonNegative := "Quantity is required and must be a non-negative number"
  const QuantityPositive := "Quantity must be a positive number"
  const LineIdsRequired := "lineIds array is required and must not be empty"
  const CartIdRequired := "Cart ID is required"
  const CheckoutCartIdRequired := "cartId is required"
  const CartNotFound := "Cart not found"

  const AddedMessage := "Items added to cart successfully"
  const UpdatedMessage := "Cart items updated successfully"
  const RemovedMessage := "Items removed from cart successfully"
  const CreatedMessage := "Cart created successfully"

  const MergeFailed := "Failed to merge carts"
  const UserCartFailed := "Failed to get user cart"
  const AddFailed := "Failed to add items to cart"
  const UpdateFailed := "Failed to update cart items"
  const RemoveFailed := "Failed to remove items from cart"
  const CreateFailed := "Failed to create cart"
  const GetFailed := "Failed to get cart"
  const CheckoutFailed := "Failed to generate checkout URL"

  /** `decodeURIComponent`: the decoded text, or the message of the URIError it throws on a
      malformed escape. */
  type UriDecoder = string -> Result<string, string>

  // ---------------------------------------------------------------- validation

  /** `v` is a number (after conversion) not below `c`: neither NaN nor `< c`. */
  predicate AtLeast(v: Value, c: real) {
    match ToNumber(v)
    case Finite(x) => x >= c
    case PosInf => true
    case _ => false
  }

  /** The per-item loop of a route: the user's add route checks the variant only, the add route
      by cart id also a present quantity, the update routes the line id and the quantity. */
  datatype ItemRule = VariantOnly | VariantAndQuantity | LineAndQuantity

  /** The checks of one loop iteration, in the source's order. Reading a property of a `null` or
      missing item throws. */
  function ItemCheck(rule: ItemRule, item: Value): (r: Check)
    ensures r.Throw? <==> item.Undefined? || item.Null?
    ensures r.Throw? ==> r.error == PropError(item, if rule.LineAndQuantity? then "lineId" else "variantId")
    ensures rule.VariantOnly? ==> (r.Pass? <==> !r.Throw? && Truthy(Prop(item, "variantId").value))
    ensures rule.VariantAndQuantity? ==>
      (r.Pass? <==> !r.Throw? && Truthy(Prop(item, "variantId").value)
                    && (Prop(item, "quantity").value.Undefined? || AtLeast(Prop(item, "quantity").value, 1.0)))
    ensures rule.LineAndQuantity? ==>
      (r.Pass? <==> !r.Throw? && Truthy(Prop(item, "lineId").value)
                    && !Prop(item, "quantity").value.Undefined? && AtLeast(Prop(item, "quantity").value, 0.0))
    ensures r.Reject? ==> r.message in {VariantRequired, QuantityPositive, LineIdRequired, QuantityNonNegative}
  {
    var key := if rule.LineAndQuantity? then "lineId" else "variantId";
    match Prop(item, key)
    case None => Throw(PropError(item, key))
    case Some(id) =>
      var q := Prop(item, "quantity").value;
      match rule
      case VariantOnly =>
        if !Truthy(id) then Reject(VariantRequired) else Pass
      case VariantAndQuantity =>
        if !Truthy(id) then Reject(VariantRequired)
        else if !q.Undefined? && (IsNaN(q) || LessThan(q, 1.0)) then Reject(QuantityPositive)
        else Pass
      case LineAndQuantity =>
        if !Truthy(id) then Reject(LineIdRequired)
        else if q.Undefined? || IsNaN(q) || LessThan(q, 0.0) then Reject(QuantityNonNegative)
        else Pass
  }

  /** The `for (const item of items)` loop: the first item that does not pass decides. */
  function CheckItems(rule: ItemRule, items: seq<Value>): (r: Check)
    ensures r.Pass? <==> forall i :: 0 <= i < |items| ==> ItemCheck(rule, items[i]).Pass?
    ensures !r.Pass? ==> exists k :: 0 <= k < |items| && r == ItemCheck(rule, items[k])
                                  && forall j :: 0 <= j < k ==> ItemCheck(rule, items[j]).Pass?
  {
    var verdicts := seq(|items|, i requires 0 <= i < |items| => ItemCheck(rule, items[i]));
    assert forall i :: 0 <= i < |items| ==> verdicts[i] == ItemCheck(rule, items[i]);
    var r := FirstFailure(verdicts);
    if !r.Pass? then
      var k :| 0 <= k < |verdicts| && r == verdicts[k] && forall j :: 0 <= j < k ==> verdicts[j].Pass?;
      assert r == ItemCheck(rule, items[k]);
      r
    else
      r
  }

  /** The items array check followed by the per-item loop. */
  function ItemsCheck(rule: ItemRule, items: Value): (r: Check)
    ensures !NonEmptyArray(items) ==> r == Reject(ItemsRequired)
    ensures NonEmptyArray(items) ==> r == CheckItems(rule, items.elems)
  {
    if !NonEmptyArray(items) then Reject(ItemsRequired) else CheckItems(rule, items.elems)
  }

  /** A failed check answered: 400 for a rejection, 500 with the route's message for a throw.
      Nothing is called, so the platform is unchanged. */
  function Refuse(s: Store, c: Check, failed: string): (r: Outcome)
    requires !c.Pass?
    ensures r.store == s
    ensures c.Reject? ==> r.response == Failure(400, c.message, None)
    ensures c.Throw? ==> r.response == Failure(500, failed, Some(c.error))
  {
    match c
    case Reject(m) => Outcome(s, Failure(400, m, None))
    case Throw(e) => Outcome(s, Failure(500, failed, Some(e)))
  }

  /** A cart service step answered: the cart with the route's status and message, or 500. */
  function Answer(step: Step<CartView>, status: nat, message: Option<string>, failed: string): (r: Outcome)
    ensures r.store == step.store
    ensures step.result.Ok? ==> r.response == CartReply(status, message, step.result.value)
    ensures step.result.Err? ==> r.response == Failure(500, failed, Some(step.result.error))
  {
    match step.result
    case Ok(cart) => Outcome(step.store, CartReply(status, message, cart))
    case Err(e) => Outcome(step.store, Failure(500, failed, Some(e)))
  }

  // ---------------------------------------------------------------- the user's cart

  /** `req.user?.email || null`: the email of the verified token, `Undefined` when it has none. */
  function UserEmail(tokenEmail: Value): (r: Value)
    ensures Truthy(tokenEmail) ==> r == tokenEmail
    ensures !Truthy(tokenEmail) ==> r == Null
  {
    Or(tokenEmail, Null)
  }

  /** What a user route does to the cart it got: add, update or remove. */
  datatype CartOp = AddOp(items: seq<Value>) | UpdateOp(items: seq<Value>) | RemoveOp(lineIds: seq<Value>)

  function Perform(s: Store, faults: Faults, cartId: string, op: CartOp): (r: Step<CartView>)
    ensures Valid(s) ==> Valid(r.store)
    ensures r.store.metafields == s.metafields
  {
    match op
    case AddOp(items) => AddToCart(s, faults, cartId, items)
    case UpdateOp(items) => UpdateCartItems(s, faults, cartId, items)
    case RemoveOp(lineIds) => RemoveFromCart(s, faults, cartId, lineIds)
  }

  /** `getOrCreateUserCart` and then the operation on the cart it returned. */
  function OnUserCart(w: Wiring, s: Store, faults: Faults, userId: string, tokenEmail: Value,
                      op: CartOp, message: string, failed: string): (r: Outcome)
    ensures Valid(s) ==> Valid(r.store)
    ensures var user := GetOrCreateUserCartWith(w, s, faults, Some(userId), UserEmail(tokenEmail));
      && (user.result.Err? ==> r == Outcome(user.store, Failure(500, failed, Some(user.result.error))))
      && (user.result.Ok? ==>
            r == Answer(Perform(user.store, faults, user.result.value.cartId, op), 200, Some(message), failed))
  {
    var user := GetOrCreateUserCartWith(w, s, faults, Some(userId), UserEmail(tokenEmail));
    match user.result
    case Err(e) => Outcome(user.store, Failure(500, failed, Some(e)))
    case Ok(cart) => Answer(Perform(user.store, faults, cart.cartId, op), 200, Some(message), failed)
  }

  /** `POST /merge`: merges the guest cart into the cart of the user named in the body. */
  function MergeRoute(w: Wiring, s: Store, faults: Faults, body: map<string, Value>, tokenEmail: Value): (r: Outcome)
    ensures !NumericId(Field(body, "userId")) ==> r == Outcome(s, Failure(400, UserIdRequired, None))
    ensures NumericId(Field(body, "userId")) ==>
      var m := MergeCartsOnLoginWith(w, s, faults, ToText(Field(body, "userId")), Field(body, "guestCartId"),
                                     UserEmail(tokenEmail));
      && r.store == m.store
      && (m.result.Err? ==> r.response == Failure(500, MergeFailed, Some(m.result.error)))
      && (m.result.Ok? ==>
            && r.response.MergeReply? && r.response.data == m.result.value.cart
            && r.response.merged == m.result.value.merged && r.response.message == m.result.value.message)
    ensures r.response.MergeReply? ==> (r.response.itemsMerged == 0 <==> !r.response.merged)
    ensures Valid(s) ==> Valid(r.store)
  {
    var userId := Field(body, "userId");
    if !NumericId(userId) then Outcome(s, Failure(400, UserIdRequired, None))
    else
      var m := MergeCartsOnLoginWith(w, s, faults, ToText(userId), Field(body, "guestCartId"), UserEmail(tokenEmail));
      match m.result
      case Err(e) => Outcome(m.store, Failure(500, MergeFailed, Some(e)))
      case Ok(res) =>
        var count := match res.itemsMerged case Some(n) => n case None => 0;
        Outcome(m.store, MergeReply(res.message, res.merged, count, res.cart))
  }

  /** `GET /user/:userId`: the user's cart, created when there is none. */
  function GetUserCartRoute(w: Wiring, s: Store, faults: Faults, userId: string, tokenEmail: Value): (r: Outcome)
    ensures !NumericId(Str(userId)) ==> r == Outcome(s, Failure(400, InvalidUserId, None))
    ensures NumericId(Str(userId)) ==>
      r == Answer(GetOrCreateUserCartWith(w, s, faults, Some(userId), UserEmail(tokenEmail)), 200, None, UserCartFailed)
    ensures Valid(s) ==> Valid(r.store)
  {
    if !NumericId(Str(userId)) then Outcome(s, Failure(400, InvalidUserId, None))
    else Answer(GetOrCreateUserCartWith(w, s, faults, Some(userId), UserEmail(tokenEmail)), 200, None, UserCartFailed)
  }

  /** `POST /user/:userId/items`: the quantity of an item is not checked here. */
  function AddUserItemsRoute(w: Wiring, s: Store, faults: Faults, userId: string, body: map<string, Value>,
                             tokenEmail: Value): (r: Outcome)
    ensures !NumericId(Str(userId)) ==> r == Outcome(s, Failure(400, InvalidUserId, None))
    ensures NumericId(Str(userId)) && !ItemsCheck(VariantOnly, Field(body, "items")).Pass? ==>
      r == Refuse(s, ItemsCheck(VariantOnly, Field(body, "items")), AddFailed)
    ensures NumericId(Str(userId)) && ItemsCheck(VariantOnly, Field(body, "items")).Pass? ==>
      r == OnUserCart(w, s, faults, userId, tokenEmail, AddOp(Field(body, "items").elems), AddedMessage, AddFailed)
    ensures StatusOf(r.response) == 400 ==> r.store == s
    ensures Valid(s) ==> Valid(r.store)
  {
    var items := Field(body, "items");
    if !NumericId(Str(userId)) then Outcome(s, Failure(400, InvalidUserId, None))
    else
      var check := ItemsCheck(VariantOnly, items);
      if !check.Pass? then Refuse(s, check, AddFailed)
      else OnUserCart(w, s, faults, userId, tokenEmail, AddOp(items.elems), AddedMessage, AddFailed)
  }

  /** `PUT /user/:userId/items`. */
  function UpdateUserItemsRoute(w: Wiring, s: Store, faults: Faults, userId: string, body: map<string, Value>,
                                tokenEmail: Value): (r: Outcome)
    ensures !NumericId(Str(userId)) ==> r == Outcome(s, Failure(400, InvalidUserId, None))
    ensures NumericId(Str(userId)) && !ItemsCheck(LineAndQuantity, Field(body, "items")).Pass? ==>
      r == Refuse(s, ItemsCheck(LineAndQuantity, Field(body, "items")), UpdateFailed)
    ensures NumericId(Str(userId)) && ItemsCheck(LineAndQuantity, Field(body, "items")).Pass? ==>
      r == OnUserCart(w, s, faults, userId, tokenEmail, UpdateOp(Field(body, "items").elems), UpdatedMessage, UpdateFailed)
    ensures StatusOf(r.response) == 400 ==> r.store == s
    ensures Valid(s) ==> Valid(r.store)
  {
    var items := Field(body, "items");
    if !NumericId(Str(userId)) then Outcome(s, Failure(400, InvalidUserId, None))
    else
      var check := ItemsCheck(LineAndQuantity, items);
      if !check.Pass? then Refuse(s, check, UpdateFailed)
      else OnUserCart(w, s, faults, userId, tokenEmail, UpdateOp(items.elems), UpdatedMessage, UpdateFailed)
  }

  /** `DELETE /user/:userId/items`: the line ids themselves are not checked. */
  function RemoveUserItemsRoute(w: Wiring, s: Store, faults: Faults, userId: string, body: map<string, Value>,
                                tokenEmail: Value): (r: Outcome)
    ensures !NumericId(Str(userId)) ==> r == Outcome(s, Failure(400, InvalidUserId, None))
    ensures NumericId(Str(userId)) && !NonEmptyArray(Field(body, "lineIds")) ==>
      r == Outcome(s, Failure(400, LineIdsRequired, None))
    ensures NumericId(Str(userId)) && NonEmptyArray(Field(body, "lineIds")) ==>
      r == OnUserCart(w, s, faults, userId, tokenEmail, RemoveOp(Field(body, "lineIds").elems), RemovedMessage, RemoveFailed)
    ensures StatusOf(r.response) == 400 ==> r.store == s
    ensures Valid(s) ==> Valid(r.store)
  {
    var lineIds := Field(body, "lineIds");
    if !NumericId(Str(userId)) then Outcome(s, Failure(400, InvalidUserId, None))
    else if !NonEmptyArray(lineIds) then Outcome(s, Failure(400, LineIdsRequired, None))
    else OnUserCart(w, s, faults, userId, tokenEmail, RemoveOp(lineIds.elems), RemovedMessage, RemoveFailed)
  }

  // ---------------------------------------------------------------- carts by id

  /** The buyer identity `POST /` passes on: `{ email, customerAccessToken }` when either is
      truthy, otherwise null. */
  function RequestBuyer(email: Value, token: Value): (r: Option<(Value, Value)>)
    ensures r.Some? <==> Truthy(email) || Truthy(token)
    ensures r.Some? ==> r.value == (email, token)
  {
    if Truthy(email) || Truthy(token) then Some((email, token)) else None
  }

  /** `POST /`: a new cart, answered 201. */
  function CreateCartRoute(s: Store, faults: Faults, body: map<string, Value>): (r: Outcome)
    ensures var step := CartService.CreateCart(s, faults, RequestBuyer(Field(body, "email"), Field(body, "customerAccessToken")));
      r == Answer(step, 201, Some(CreatedMessage), CreateFailed)
    ensures CartCreate !in faults ==> StatusOf(r.response) == 201 && r.response.data.items == []
    ensures Valid(s) ==> Valid(r.store)
  {
    var step := CartService.CreateCart(s, faults, RequestBuyer(Field(body, "email"), Field(body, "customerAccessToken")));
    Answer(step, 201, Some(CreatedMessage), CreateFailed)
  }

  /** `GET /:cartId`: the cart under the decoded id, 404 when there is none. */
  function GetCartRoute(s: Store, faults: Faults, cartId: string, decode: UriDecoder): (r: Outcome)
    ensures r.store == s
    ensures cartId == "" ==> r.response == Failure(400, CartIdRequired, None)
    ensures cartId != "" && decode(cartId).Err? ==> r.response == Failure(500, GetFailed, Some(decode(cartId).error))
    ensures cartId != "" && decode(cartId).Ok? ==>
      (StatusOf(r.response) == 404 <==> GetCart(s, faults, decode(cartId).value) == Ok(None))
    ensures cartId != "" && decode(cartId).Ok? && GetCart(s, faults, decode(cartId).value).Ok?
            && GetCart(s, faults, decode(cartId).value).value.Some? ==>
      r.response == CartReply(200, None, GetCart(s, faults, decode(cartId).value).value.value)
  {
    if cartId == "" then Outcome(s, Failure(400, CartIdRequired, None))
    else
      match decode(cartId)
      case Err(e) => Outcome(s, Failure(500, GetFailed, Some(e)))
      case Ok(id) =>
        match GetCart(s, faults, id)
        case Err(e) => Outcome(s, Failure(500, GetFailed, Some(e)))
        case Ok(None) => Outcome(s, Failure(404, CartNotFound, None))
        case Ok(Some(cart)) => Outcome(s, CartReply(200, None, cart))
  }

  /** The routes that change a cart by id: the id, the request check, then the decoded id. */
  function OnCartById(s: Store, faults: Faults, cartId: string, decode: UriDecoder, check: Check,
                      op: CartOp, message: string, failed: string): (r: Outcome)
    ensures cartId == "" ==> r == Outcome(s, Failure(400, CartIdRequired, None))
    ensures cartId != "" && !check.Pass? ==> r == Refuse(s, check, failed)
    ensures cartId != "" && check.Pass? && decode(cartId).Err? ==>
      r == Outcome(s, Failure(500, failed, Some(decode(cartId).error)))
    ensures cartId != "" && check.Pass? && decode(cartId).Ok? ==>
      r == Answer(Perform(s, faults, decode(cartId).value, op), 200, Some(message), failed)
    ensures StatusOf(r.response) == 400 ==> r.store == s
    ensures Valid(s) ==> Valid(r.store)
  {
    if cartId == "" then Outcome(s, Failure(400, CartIdRequired, None))
    else if !check.Pass? then Refuse(s, check, failed)
    else
      match decode(cartId)
      case Err(e) => Outcome(s, Failure(500, failed, Some(e)))
      case Ok(id) => Answer(Perform(s, faults, id, op), 200, Some(message), failed)
  }

  /** `POST /:cartId/items`: a present quantity must be a number of at least 1. */
  function AddItemsRoute(s: Store, faults: Faults, cartId: string, body: map<string, Value>, decode: UriDecoder): (r: Outcome)
    ensures var items := Field(body, "items");
      r == OnCartById(s, faults, cartId, decode, ItemsCheck(VariantAndQuantity, items),
                      AddOp(if items.Arr? then items.elems else []), AddedMessage, AddFailed)
    ensures StatusOf(r.response) == 400 ==> r.store == s
  {
    var items := Field(body, "items");
    OnCartById(s, faults, cartId, decode, ItemsCheck(VariantAndQuantity, items),
               AddOp(if items.Arr? then items.elems else []), AddedMessage, AddFailed)
  }

  /** `PUT /:cartId/items`: every item needs a line id and a quantity of at least 0. */
  function UpdateItemsRoute(s: Store, faults: Faults, cartId: string, body: map<string, Value>, decode: UriDecoder): (r: Outcome)
    ensures var items := Field(body, "items");
      r == OnCartById(s, faults, cartId, decode, ItemsCheck(LineAndQuantity, items),
                      UpdateOp(if items.Arr? then items.elems else []), UpdatedMessage, UpdateFailed)
    ensures StatusOf(r.response) == 400 ==> r.store == s
  {
    var items := Field(body, "items");
    OnCartById(s, faults, cartId, decode, ItemsCheck(LineAndQuantity, items),
               UpdateOp(if items.Arr? then items.elems else []), UpdatedMessage, UpdateFailed)
  }

  /** `DELETE /:cartId/items`: a non-empty `lineIds` array. */
  function RemoveItemsRoute(s: Store, faults: Faults, cartId: string, body: map<string, Value>, decode: UriDecoder): (r: Outcome)
    ensures var lineIds := Field(body, "lineIds");
      r == OnCartById(s, faults, cartId, decode,
                      if NonEmptyArray(lineIds) then Pass else Reject(LineIdsRequired),
                      RemoveOp(if lineIds.Arr? then lineIds.elems else []), RemovedMessage, RemoveFailed)
    ensures StatusOf(r.response) == 400 ==> r.store == s
  {
    var lineIds := Field(body, "lineIds");
    OnCartById(s, faults, cartId, decode,
               if NonEmptyArray(lineIds) then Pass else Reject(LineIdsRequired),
               RemoveOp(if lineIds.Arr? then lineIds.elems else []), RemovedMessage, RemoveFailed)
  }

  /** `POST /checkout`. With an access token the buyer identity is updated on the cart id as
      given and the answer carries the buyer; without one the decoded id is looked up and the
      answer carries a null buyer. A number whose text this model does not produce names no cart. */
  function CheckoutRoute(s: Store, faults: Faults, body: map<string, Value>, decode: UriDecoder): (r: Outcome)
    ensures var cartId := Field(body, "cartId");
      !Truthy(cartId) ==> r == Outcome(s, Failure(400, CheckoutCartIdRequired, None))
    ensures var cartId := Field(body, "cartId"); var token := Field(body, "customerAccessToken");
      Truthy(cartId) && Truthy(token) ==>
        var step := UpdateCartBuyerIdentity(s, faults, cartId, token);
        && r.store == step.store
        && (step.result.Ok? ==> r.response == CheckoutReply(step.result.value.checkoutUrl, Some(step.result.value.buyerIdentity)))
        && (step.result.Err? ==> r.response == Failure(500, CheckoutFailed, Some(step.result.error)))
    ensures var cartId := Field(body, "cartId"); var token := Field(body, "customerAccessToken");
      Truthy(cartId) && !Truthy(token) ==>
        && r.store == s
        && (r.response.CheckoutReply? ==> r.response.buyerIdentity.None?)
        && (ToText(cartId).Some? && decode(ToText(cartId).value).Ok? ==>
              var found := GetCart(s, faults, decode(ToText(cartId).value).value);
              && (StatusOf(r.response) == 404 <==> found == Ok(None))
              && (found.Ok? && found.value.Some? ==> r.response == CheckoutReply(found.value.value.checkoutUrl, None)))
    ensures Valid(s) ==> Valid(r.store)
  {
    var cartId := Field(body, "cartId");
    var token := Field(body, "customerAccessToken");
    if !Truthy(cartId) then Outcome(s, Failure(400, CheckoutCartIdRequired, None))
    else if Truthy(token) then
      var step := UpdateCartBuyerIdentity(s, faults, cartId, token);
      match step.result
      case Ok(v) => Outcome(step.store, CheckoutReply(v.checkoutUrl, Some(v.buyerIdentity)))
      case Err(e) => Outcome(step.store, Failure(500, CheckoutFailed, Some(e)))
    else
      match ToText(cartId)
      case None => Outcome(s, Failure(404, CartNotFound, None))
      case Some(text) =>
        match decode(text)
        case Err(e) => Outcome(s, Failure(500, CheckoutFailed, Some(e)))
        case Ok(id) =>
          match GetCart(s, faults, id)
          case Err(e) => Outcome(s, Failure(500, CheckoutFailed, Some(e)))
          case Ok(None) => Outcome(s, Failure(404, CartNotFound, None))
          case Ok(Some(cart)) => Outcome(s, CheckoutReply(cart.checkoutUrl, None))
  }

  // ---------------------------------------------------------------- properties

  /** A path parameter of decimal digits is a user id; one with no digit at all (and not blank or
      `Infinity`) is refused with 400 before any cart operation. */
  lemma UserIdParam(w: Wiring, s: Store, faults: Faults, userId: string, tokenEmail: Value)
    ensures |userId| > 0 && AllDigits(userId) ==> NumericId(Str(userId))
    ensures NoNumeral(userId) ==> GetUserCartRoute(w, s, faults, userId, tokenEmail) == Outcome(s, Failure(400, InvalidUserId, None))
  {
    if |userId| > 0 && AllDigits(userId) {
      DigitParamIsNumber(userId);
    }
    if NoNumeral(userId) {
      NoDigitParamIsNaN(userId);
    }
  }

  /** An illustration of the item checks on one item: the quantity rules of the three item
      loops differ, so 0 passes the user's add route and the update routes, but the add route
      by cart id refuses it. */
  lemma ZeroQuantityRules(id: string)
    requires id != ""
    ensures var item := Obj(map["variantId" := Str(id), "lineId" := Str(id), "quantity" := Num(Finite(0.0))]);
      && ItemCheck(VariantOnly, item) == Pass
      && ItemCheck(VariantAndQuantity, item) == Reject(QuantityPositive)
      && ItemCheck(LineAndQuantity, item) == Pass
  {
    var item := Obj(map["variantId" := Str(id), "lineId" := Str(id), "quantity" := Num(Finite(0.0))]);
    assert Prop(item, "variantId") == Some(Str(id)) && Prop(item, "lineId") == Some(Str(id));
    assert Prop(item, "quantity") == Some(Num(Finite(0.0)));
  }

  /** The user's add route accepts items whatever their quantity: giving an item another
      quantity never changes its verdict. */
  lemma UserAddIgnoresQuantity(fields: map<string, Value>, q: Value)
    ensures ItemCheck(VariantOnly, Obj(fields["quantity" := q])) == ItemCheck(VariantOnly, Obj(fields))
  {
    assert Prop(Obj(fields["quantity" := q]), "variantId") == Prop(Obj(fields), "variantId");
  }

  /** Asking twice for a known customer's cart through `GET /user/:userId` answers the same cart,
      and the second request changes nothing (with the metafield writer wired). */
  lemma UserCartRouteStable(s: Store, faults: Faults, c: string, tokenEmail: Value)
    requires Valid(s) && c in s.metafields && CartSession.Reliable(faults, c) && NumericId(Str(c))
    ensures var first := GetUserCartRoute(Intended, s, faults, c, tokenEmail);
      && StatusOf(first.response) == 200
      && GetUserCartRoute(Intended, first.store, faults, c, tokenEmail) == first
  {
    CartSession.SecondCallSameCart(s, faults, c, UserEmail(tokenEmail));
  }

  /** `GET /:cartId` on a reachable platform answers 404 exactly when no cart is stored under the
      decoded id, and the stored cart otherwise. */
  lemma GetCartRouteFindsStored(s: Store, faults: Faults, cartId: string, decode: UriDecoder)
    requires cartId != "" && decode(cartId).Ok? && CartQuery(decode(cartId).value) !in faults
    ensures var id := decode(cartId).value;
      && (StatusOf(GetCartRoute(s, faults, cartId, decode).response) == 404 <==> id !in s.carts)
      && (id in s.carts ==> GetCartRoute(s, faults, cartId, decode).response
                            == CartReply(200, None, FormatCartResponse(Snapshot(s.currency, s.carts[id]))))
  {
  }
}
