/** The commerce platform behind the cart service, as an abstract state: carts by id, customer
    metafields by customer id, the variant catalogue and the customer access tokens it knows.
    Each storefront call either meets a fault (transport failure or top-level GraphQL errors,
    chosen by the caller through `Faults`) or is answered from and applied to this state.

    What the platform itself decides (fresh ids, the user errors it reports, that added lines are
    appended) is a simplification of the real service; the cart service only relies on the shape
    of the answers. */
module CartPlatform {
  import opened Wrappers
  import opened JsText
  import opened JsNumber
  import opened JsValue
  import opened CustomerService

  /** An amount in cents. Prices travel as decimal strings on the wire; the model keeps cents. */
  datatype Money = Money(cents: int, currencyCode: string)
  datatype Image = Image(url: string, altText: Option<string>)
  datatype Product = Product(id: string, title: string, handle: string, featuredImage: Option<Image>)
  datatype Variant = Variant(id: string, title: string, price: Money, image: Option<Image>, product: Product)
  datatype Buyer = Buyer(email: Option<string>, phone: Option<string>)

  datatype Line = Line(id: string, quantity: nat, merchandise: Variant)
  datatype CartRecord = CartRecord(
    id: string, checkoutUrl: string, createdAt: string, updatedAt: string,
    lines: seq<Line>, buyer: Buyer, taxCents: Option<int>)

  /** The `cart` selection the service queries: lines with their cost, the cart totals. */
  datatype LineNode = LineNode(id: string, quantity: nat, merchandise: Variant, cost: Money)
  datatype CartNode = CartNode(
    id: string, checkoutUrl: string, createdAt: string, updatedAt: string,
    lines: seq<LineNode>, subtotal: Money, total: Money, totalTax: Option<Money>, totalQuantity: nat)

  datatype Store = Store(
    carts: map<string, CartRecord>,
    metafields: map<string, seq<Metafield>>,
    catalogue: map<string, Variant>,
    accessTokens: map<string, Buyer>,
    serial: nat,
    now: string,
    currency: string)

  // ---------------------------------------------------------------- ids

  const CartGidPrefix := "gid://shopify/Cart/"
  const LineGidPrefix := "gid://shopify/CartLine/"

  function CartGid(n: nat): string { CartGidPrefix + NatToString(n) }
  function LineGid(n: nat): string { LineGidPrefix + NatToString(n) }
  function CheckoutUrl(n: nat): string { "/cart/c/" + NatToString(n) }

  lemma CartGidInjective(m: nat, n: nat)
    requires CartGid(m) == CartGid(n)
    ensures m == n
  {
    assert NatToString(m) == CartGid(m)[|CartGidPrefix|..];
    assert NatToString(n) == CartGid(n)[|CartGidPrefix|..];
    NatToStringInjective(m, n);
  }

  /** Every cart and every variant is stored under its own id, and no cart id the counter has yet
      to hand out is taken. */
  ghost predicate Valid(s: Store) {
    && (forall k :: k in s.carts ==> s.carts[k].id == k && LinesOk(s, s.carts[k].lines))
    && (forall k :: k in s.catalogue ==> s.catalogue[k].id == k)
    && (forall n: nat :: n >= s.serial ==> CartGid(n) !in s.carts)
  }

  /** A line holds at least one unit of a variant the catalogue lists as is. */
  predicate LineOk(s: Store, l: Line) {
    l.quantity >= 1 && l.merchandise.id in s.catalogue && s.catalogue[l.merchandise.id] == l.merchandise
  }

  predicate LinesOk(s: Store, lines: seq<Line>) {
    forall i :: 0 <= i < |lines| ==> LineOk(s, lines[i])
  }

  /** A GraphQL `ID` variable: strings pass, integral numbers are read as their decimal text, any
      other value is rejected before execution. */
  function IdText(v: Value): Option<string> {
    match v
    case Str(s) => Some(s)
    case Num(Finite(r)) => if IsIntegral(r) && r >= 0.0 then Some(NatToString(r.Floor)) else None
    case _ => None
  }

  // ---------------------------------------------------------------- answers

  datatype Call =
    | MetafieldsRead(customer: string)
    | MetafieldWrite(customer: string)
    | CartQuery(cartId: string)
    | CartCreate
    | LinesAdd(cartId: string)
    | LinesUpdate(cartId: string)
    | LinesRemove(cartId: string)
    | BuyerUpdate(cartId: string)

  /** A failure the platform or the network may produce for a call, whatever the state. */
  datatype Fault = Unreachable(message: string) | Errors(messages: seq<string>)
  type Faults = map<Call, Fault>

  /** What a storefront call yields: a rejected request, or the GraphQL body with its top-level
      `errors`, the `cart` and the mutation's `userErrors`. */
  datatype Body =
    | Rejected(message: string)
    | Answer(errors: Option<seq<string>>, cart: Option<CartNode>, userErrors: seq<string>)

  datatype Reply = Reply(store: Store, body: Body)

  function FaultBody(f: Fault): Body {
    match f
    case Unreachable(m) => Rejected(m)
    case Errors(ms) => Answer(Some(ms), None, [])
  }

  const InvalidVariables := "Variable $cartId of type ID! was provided invalid value"
  const NoSuchCart := "The specified cart does not exist."
  const InvalidLines := "The merchandise or quantity of a line is invalid."
  const NoSuchLine := "The specified cart line does not exist."
  const InvalidToken := "Customer access token is invalid."
  const NoSuchCustomer := "Request failed with status code 404"

  // ---------------------------------------------------------------- cart snapshot

  function SumQuantities(lines: seq<Line>): nat
    decreases |lines|
  {
    if |lines| == 0 then 0 else lines[0].quantity + SumQuantities(lines[1..])
  }

  function SumCosts(nodes: seq<LineNode>): int
    decreases |nodes|
  {
    if |nodes| == 0 then 0 else nodes[0].cost.cents + SumCosts(nodes[1..])
  }

  lemma {:induction false} SumQuantitiesAppend(a: seq<Line>, b: seq<Line>)
    ensures SumQuantities(a + b) == SumQuantities(a) + SumQuantities(b)
    decreases |a|
  {
    if |a| == 0 {
      assert a + b == b;
    } else {
      assert (a + b)[1..] == a[1..] + b;
      assert (a + b)[0] == a[0];
      SumQuantitiesAppend(a[1..], b);
    }
  }

  function LineCost(l: Line): Money {
    Money(l.merchandise.price.cents * l.quantity, l.merchandise.price.currencyCode)
  }

  /** A line as a query answers it, with its cost. */
  function NodeOf(l: Line): LineNode {
    LineNode(l.id, l.quantity, l.merchandise, LineCost(l))
  }

  function LineNodes(lines: seq<Line>): (r: seq<LineNode>)
    ensures |r| == |lines|
    decreases |lines|
  {
    if |lines| == 0 then [] else [NodeOf(lines[0])] + LineNodes(lines[1..])
  }

  lemma {:induction false} LineNodesAt(lines: seq<Line>, k: nat)
    requires k < |lines|
    ensures LineNodes(lines)[k] == NodeOf(lines[k])
    decreases k
  {
    if k > 0 {
      LineNodesAt(lines[1..], k - 1);
    }
  }

  lemma LineNodesAll(lines: seq<Line>)
    ensures forall i :: 0 <= i < |lines| ==> LineNodes(lines)[i] == NodeOf(lines[i])
  {
    forall i | 0 <= i < |lines|
      ensures LineNodes(lines)[i] == NodeOf(lines[i])
    {
      LineNodesAt(lines, i);
    }
  }

  lemma {:induction false} LineNodesAppend(a: seq<Line>, b: seq<Line>)
    ensures LineNodes(a + b) == LineNodes(a) + LineNodes(b)
    decreases |a|
  {
    if |a| == 0 {
      assert a + b == b;
    } else {
      assert (a + b)[1..] == a[1..] + b;
      LineNodesAppend(a[1..], b);
    }
  }

  /** The cart as a query answers it: line costs are price times quantity, the subtotal sums them,
      the total adds the tax when there is one. */
  function Snapshot(currency: string, c: CartRecord): (n: CartNode)
    ensures n.id == c.id && |n.lines| == |c.lines|
    ensures forall i :: 0 <= i < |c.lines| ==>
      n.lines[i] == NodeOf(c.lines[i])
    ensures n.totalQuantity == SumQuantities(c.lines)
    ensures n.total.cents == n.subtotal.cents + c.taxCents.GetOr(0)
  {
    LineNodesAll(c.lines);
    var nodes := LineNodes(c.lines);
    var subtotal := SumCosts(nodes);
    CartNode(c.id, c.checkoutUrl, c.createdAt, c.updatedAt, nodes,
             Money(subtotal, currency), Money(subtotal + c.taxCents.GetOr(0), currency),
             match c.taxCents case Some(t) => Some(Money(t, currency)) case None => None,
             SumQuantities(c.lines))
  }

  // ---------------------------------------------------------------- queries

  /** `cart(id:)`: the cart, or a null cart for an id the platform does not know. */
  function QueryCart(s: Store, faults: Faults, id: string): (b: Body)
    ensures CartQuery(id) !in faults && id in s.carts ==> b == Answer(None, Some(Snapshot(s.currency, s.carts[id])), [])
    ensures CartQuery(id) !in faults && id !in s.carts ==> b == Answer(None, None, [])
  {
    if CartQuery(id) in faults then FaultBody(faults[CartQuery(id)])
    else Answer(None, if id in s.carts then Some(Snapshot(s.currency, s.carts[id])) else None, [])
  }

  /** The metafield listing of a customer; a customer the platform does not know answers 404.
      `None` is a customer id whose text the model does not produce (it names no customer). */
  function ReadMetafields(s: Store, faults: Faults, customer: Option<string>): (r: MetafieldsReply)
    ensures customer.Some? && MetafieldsRead(customer.value) !in faults && customer.value in s.metafields ==>
      r == Ok(Some(s.metafields[customer.value]))
    ensures customer.None? || customer.value !in s.metafields ==> r.Err?
  {
    match customer
    case None => Err(NoSuchCustomer)
    case Some(id) =>
      if MetafieldsRead(id) in faults then
        Err(match faults[MetafieldsRead(id)] case Unreachable(m) => m case Errors(_) => NoSuchCustomer)
      else if id in s.metafields then Ok(Some(s.metafields[id]))
      else Err(NoSuchCustomer)
  }

  /** The metafield is the one a write addresses by namespace and key. */
  predicate Carries(m: Metafield, ns: string, key: string) {
    m.namespace == Some(ns) && m.key == key
  }

  /** How many entries of a list carry the (namespace, key). */
  function CountCarrying(mfs: seq<Metafield>, ns: string, key: string): (n: nat)
    ensures n == 0 <==> forall i :: 0 <= i < |mfs| ==> !Carries(mfs[i], ns, key)
    ensures n <= |mfs|
    decreases |mfs|
  {
    if |mfs| == 0 then 0
    else (if Carries(mfs[0], ns, key) then 1 else 0) + CountCarrying(mfs[1..], ns, key)
  }

  /** Every entry carrying the (namespace, key) takes the new value and type; the others stay. */
  function Overwrite(mfs: seq<Metafield>, ns: string, key: string, value: string, mtype: string): (r: seq<Metafield>)
    ensures |r| == |mfs|
    ensures forall i :: 0 <= i < |mfs| ==>
      r[i] == if Carries(mfs[i], ns, key) then mfs[i].(value := value, mtype := mtype) else mfs[i]
    decreases |mfs|
  {
    if |mfs| == 0 then []
    else
      var head := mfs[0];
      [if Carries(head, ns, key) then head.(value := value, mtype := mtype) else head]
        + Overwrite(mfs[1..], ns, key, value, mtype)
  }

  /** The platform's metafield write: an existing (namespace, key) entry is updated in place;
      only when there is none is a new entry, with a fresh id, appended. */
  function Upsert(mfs: seq<Metafield>, ns: string, key: string, value: string, mtype: string, freshId: nat): (r: seq<Metafield>)
    ensures |r| == |mfs| + (if CountCarrying(mfs, ns, key) == 0 then 1 else 0)
    ensures forall i :: 0 <= i < |mfs| ==>
      r[i].id == mfs[i].id && r[i].namespace == mfs[i].namespace && r[i].key == mfs[i].key
    ensures forall i :: 0 <= i < |mfs| && !Carries(mfs[i], ns, key) ==> r[i] == mfs[i]
    ensures forall i :: 0 <= i < |r| && Carries(r[i], ns, key) ==> r[i].value == value && r[i].mtype == mtype
    ensures CountCarrying(mfs, ns, key) == 0 ==> r[|mfs|] == Metafield(freshId, Some(ns), key, value, mtype)
  {
    if CountCarrying(mfs, ns, key) == 0 then mfs + [Metafield(freshId, Some(ns), key, value, mtype)]
    else Overwrite(mfs, ns, key, value, mtype)
  }

  /** Writing one metafield of a customer; a customer the platform does not know answers 404. */
  function WriteMetafield(s: Store, faults: Faults, customer: Option<string>,
                          ns: string, key: string, value: string, mtype: string): (r: Result<Store, string>)
    ensures r.Ok? ==> customer.Some? && customer.value in s.metafields
    ensures r.Ok? ==> r.value == s.(metafields := s.metafields[customer.value :=
                                      Upsert(s.metafields[customer.value], ns, key, value, mtype, s.serial)],
                                    serial := s.serial + 1)
    ensures customer.Some? && MetafieldWrite(customer.value) !in faults && customer.value in s.metafields ==> r.Ok?
  {
    match customer
    case None => Err(NoSuchCustomer)
    case Some(id) =>
      if MetafieldWrite(id) in faults then
        Err(match faults[MetafieldWrite(id)] case Unreachable(m) => m case Errors(_) => NoSuchCustomer)
      else if id in s.metafields then
        Ok(s.(metafields := s.metafields[id := Upsert(s.metafields[id], ns, key, value, mtype, s.serial)],
              serial := s.serial + 1))
      else Err(NoSuchCustomer)
  }

  /** Overwriting keeps which entries carry the (namespace, key). */
  lemma {:induction false} OverwriteCount(mfs: seq<Metafield>, ns: string, key: string, value: string, mtype: string)
    ensures CountCarrying(Overwrite(mfs, ns, key, value, mtype), ns, key) == CountCarrying(mfs, ns, key)
    decreases |mfs|
  {
    if |mfs| > 0 {
      var r := Overwrite(mfs, ns, key, value, mtype);
      assert r[1..] == Overwrite(mfs[1..], ns, key, value, mtype);
      assert Carries(r[0], ns, key) == Carries(mfs[0], ns, key);
      OverwriteCount(mfs[1..], ns, key, value, mtype);
    }
  }

  /** Counting over a list with one more entry at the end. */
  lemma {:induction false} CountCarryingSnoc(mfs: seq<Metafield>, m: Metafield, ns: string, key: string)
    ensures CountCarrying(mfs + [m], ns, key) == CountCarrying(mfs, ns, key) + (if Carries(m, ns, key) then 1 else 0)
    decreases |mfs|
  {
    if |mfs| == 0 {
      assert CountCarrying([m], ns, key) == (if Carries(m, ns, key) then 1 else 0) + CountCarrying([], ns, key);
    } else {
      assert (mfs + [m])[1..] == mfs[1..] + [m];
      CountCarryingSnoc(mfs[1..], m, ns, key);
    }
  }

  /** After a write the (namespace, key) is carried by the entries that carried it before, or by
      exactly one new entry when none did: a customer holding at most one such entry still holds
      exactly one, however often it is written. */
  lemma UpsertPresent(mfs: seq<Metafield>, ns: string, key: string, value: string, mtype: string, freshId: nat)
    ensures var before := CountCarrying(mfs, ns, key);
      CountCarrying(Upsert(mfs, ns, key, value, mtype, freshId), ns, key) == if before == 0 then 1 else before
    ensures CountCarrying(mfs, ns, key) <= 1 ==> CountCarrying(Upsert(mfs, ns, key, value, mtype, freshId), ns, key) == 1
  {
    if CountCarrying(mfs, ns, key) == 0 {
      CountCarryingSnoc(mfs, Metafield(freshId, Some(ns), key, value, mtype), ns, key);
    } else {
      OverwriteCount(mfs, ns, key, value, mtype);
    }
  }

  // ---------------------------------------------------------------- mutations

  /** The `buyerIdentity` input of `cartCreate`: a known access token names its customer; an email
      string is recorded as given. */
  function BuyerFrom(s: Store, email: Value, token: Value): Buyer {
    match token
    case Str(t) =>
      if t in s.accessTokens then s.accessTokens[t]
      else Buyer(if email.Str? then Some(email.s) else None, None)
    case _ => Buyer(if email.Str? then Some(email.s) else None, None)
  }

  /** `cartCreate`: an empty cart under the next id. */
  function CreateCart(s: Store, faults: Faults, buyer: Option<(Value, Value)>): (r: Reply)
    ensures r.store.currency == s.currency && r.store.catalogue == s.catalogue
    ensures CartCreate !in faults ==>
      && CartGid(s.serial) in r.store.carts
      && r.store.carts == s.carts[CartGid(s.serial) := r.store.carts[CartGid(s.serial)]]
      && r.store.carts[CartGid(s.serial)].lines == []
      && r.store.serial == s.serial + 1
      && r.store.metafields == s.metafields
      && r.body == Answer(None, Some(Snapshot(r.store.currency, r.store.carts[CartGid(s.serial)])), [])
    ensures CartCreate in faults ==> r.store == s
    ensures Valid(s) ==> Valid(r.store)
  {
    if CartCreate in faults then Reply(s, FaultBody(faults[CartCreate]))
    else
      var id := CartGid(s.serial);
      var who := match buyer case Some((email, token)) => BuyerFrom(s, email, token) case None => Buyer(None, None);
      var record := CartRecord(id, CheckoutUrl(s.serial), s.now, s.now, [], who, None);
      var s' := s.(carts := s.carts[id := record], serial := s.serial + 1);
      assert Valid(s) ==> Valid(s') by {
        if Valid(s) {
          forall n: nat | n >= s'.serial
            ensures CartGid(n) !in s'.carts
          {
            if CartGid(n) == id {
              CartGidInjective(n, s.serial);
            }
          }
        }
      }
      Reply(s', Answer(None, Some(Snapshot(s'.currency, record)), []))
  }

  /** One `CartLineInput`: the merchandise id and the quantity as sent. */
  datatype LineInput = LineInput(merchandiseId: Value, quantity: Value)

  /** The variant and quantity a line input names, when both are valid. */
  function Resolve(s: Store, li: LineInput): Option<(Variant, nat)> {
    match (li.merchandiseId, li.quantity)
    case (Str(id), Num(Finite(q))) =>
      if id in s.catalogue && IsIntegral(q) && q >= 1.0 then Some((s.catalogue[id], q.Floor as nat)) else None
    case _ => None
  }

  /** Every input names a listed variant and a positive whole quantity. */
  predicate Resolves(s: Store, inputs: seq<LineInput>) {
    forall i :: 0 <= i < |inputs| ==> Resolve(s, inputs[i]).Some?
  }

  lemma ResolvesTail(s: Store, inputs: seq<LineInput>)
    requires |inputs| > 0 && Resolves(s, inputs)
    ensures Resolves(s, inputs[1..])
  {
    forall i | 0 <= i < |inputs[1..]|
      ensures Resolve(s, inputs[1..][i]).Some?
    {
      assert inputs[1..][i] == inputs[i + 1];
    }
  }

  /** The lines `cartLinesAdd` creates for resolved inputs, numbered from `serial`. */
  function NewLines(s: Store, serial: nat, inputs: seq<LineInput>): (r: seq<Line>)
    requires Resolves(s, inputs)
    ensures |r| == |inputs|
    decreases |inputs|
  {
    if |inputs| == 0 then []
    else
      var v := Resolve(s, inputs[0]).value;
      ResolvesTail(s, inputs);
      [Line(LineGid(serial), v.1, v.0)] + NewLines(s, serial + 1, inputs[1..])
  }

  lemma {:induction false} NewLinesAt(s: Store, serial: nat, inputs: seq<LineInput>, k: nat)
    requires Resolves(s, inputs) && k < |inputs|
    ensures NewLines(s, serial, inputs)[k]
         == Line(LineGid(serial + k), Resolve(s, inputs[k]).value.1, Resolve(s, inputs[k]).value.0)
    decreases k
  {
    if k > 0 {
      ResolvesTail(s, inputs);
      assert inputs[1..][k - 1] == inputs[k];
      NewLinesAt(s, serial + 1, inputs[1..], k - 1);
    }
  }

  /** Each new line carries a fresh line id and the resolved variant and quantity; in a valid
      store the new lines are well formed. */
  lemma NewLinesAll(s: Store, serial: nat, inputs: seq<LineInput>)
    requires Resolves(s, inputs)
    ensures forall i :: 0 <= i < |inputs| ==>
      NewLines(s, serial, inputs)[i]
      == Line(LineGid(serial + i), Resolve(s, inputs[i]).value.1, Resolve(s, inputs[i]).value.0)
    ensures Valid(s) ==> LinesOk(s, NewLines(s, serial, inputs))
  {
    forall i | 0 <= i < |inputs|
      ensures NewLines(s, serial, inputs)[i]
           == Line(LineGid(serial + i), Resolve(s, inputs[i]).value.1, Resolve(s, inputs[i]).value.0)
    {
      NewLinesAt(s, serial, inputs, i);
    }
  }


  /** `cartLinesAdd`: one new line per input, appended in input order. */
  function AddLines(s: Store, faults: Faults, cartId: string, inputs: seq<LineInput>): (r: Reply)
    ensures r.store.currency == s.currency && r.store.catalogue == s.catalogue
    ensures Valid(s) ==> Valid(r.store)
    ensures r.store.metafields == s.metafields
    ensures r.store.carts.Keys == s.carts.Keys
    ensures LinesAdd(cartId) in faults ==> r == Reply(s, FaultBody(faults[LinesAdd(cartId)]))
    ensures LinesAdd(cartId) !in faults && cartId !in s.carts ==> r == Reply(s, Answer(None, None, [NoSuchCart]))
    ensures LinesAdd(cartId) !in faults && cartId in s.carts && !Resolves(s, inputs) ==>
      r == Reply(s, Answer(None, None, [InvalidLines]))
    ensures LinesAdd(cartId) !in faults && cartId in s.carts && Resolves(s, inputs) ==>
      && cartId in r.store.carts
      && r.store.carts[cartId].lines == s.carts[cartId].lines + NewLines(s, s.serial, inputs)
      && r.store.carts[cartId].id == s.carts[cartId].id
      && (forall id :: id in s.carts && id != cartId ==> r.store.carts[id] == s.carts[id])
      && r.body == Answer(None, Some(Snapshot(r.store.currency, r.store.carts[cartId])), [])
  {
    if LinesAdd(cartId) in faults then Reply(s, FaultBody(faults[LinesAdd(cartId)]))
    else if cartId !in s.carts then Reply(s, Answer(None, None, [NoSuchCart]))
    else if !Resolves(s, inputs) then Reply(s, Answer(None, None, [InvalidLines]))
    else
      var c := s.carts[cartId];
      NewLinesAll(s, s.serial, inputs);
      var c' := c.(lines := c.lines + NewLines(s, s.serial, inputs), updatedAt := s.now);
      var s' := s.(carts := s.carts[cartId := c'], serial := s.serial + |inputs|);
      Reply(s', Answer(None, Some(Snapshot(s'.currency, c')), []))
  }

  /** One `CartLineUpdateInput`: the line id and the new quantity as sent. */
  datatype LineUpdate = LineUpdate(lineId: Value, quantity: Value)

  function UpdateOne(lines: seq<Line>, id: string, q: nat): seq<Line> {
    if q == 0 then RemoveIds(lines, {id})
    else seq(|lines|, i requires 0 <= i < |lines| => if lines[i].id == id then lines[i].(quantity := q) else lines[i])
  }

  /** The lines whose id is not among `ids`, in their order. */
  function RemoveIds(lines: seq<Line>, ids: set<string>): (r: seq<Line>)
    ensures forall i :: 0 <= i < |r| ==> r[i].id !in ids
    ensures forall l :: l in r <==> l in lines && l.id !in ids
    ensures (forall i :: 0 <= i < |lines| ==> lines[i].id !in ids) ==> r == lines
    ensures |r| <= |lines|
    decreases |lines|
  {
    if |lines| == 0 then []
    else
      var rest := RemoveIds(lines[1..], ids);
      assert forall l :: l in lines <==> l == lines[0] || l in lines[1..];
      assert lines == [lines[0]] + lines[1..];
      (if lines[0].id in ids then [] else [lines[0]]) + rest
  }

  /** Removing from a concatenation removes from each part: the kept lines keep their order. */
  lemma {:induction false} RemoveIdsAppend(a: seq<Line>, b: seq<Line>, ids: set<string>)
    ensures RemoveIds(a + b, ids) == RemoveIds(a, ids) + RemoveIds(b, ids)
    decreases |a|
  {
    if |a| == 0 {
      assert a + b == b;
    } else {
      assert (a + b)[0] == a[0] && (a + b)[1..] == a[1..] + b;
      RemoveIdsAppend(a[1..], b, ids);
    }
  }

  predicate HasLine(c: CartRecord, id: string) {
    exists i :: 0 <= i < |c.lines| && c.lines[i].id == id
  }

  function ApplyUpdates(lines: seq<Line>, updates: seq<(string, nat)>): seq<Line>
    decreases |updates|
  {
    if |updates| == 0 then lines else ApplyUpdates(UpdateOne(lines, updates[0].0, updates[0].1), updates[1..])
  }

  function ValidUpdate(c: CartRecord, u: LineUpdate): Option<(string, nat)> {
    match (u.lineId, u.quantity)
    case (Str(id), Num(Finite(q))) =>
      if HasLine(c, id) && IsIntegral(q) && q >= 0.0 then Some((id, q.Floor as nat)) else None
    case _ => None
  }

  lemma RemoveIdsOk(s: Store, lines: seq<Line>, ids: set<string>)
    requires LinesOk(s, lines)
    ensures LinesOk(s, RemoveIds(lines, ids))
  {
    var r := RemoveIds(lines, ids);
    forall i | 0 <= i < |r|
      ensures LineOk(s, r[i])
    {
      assert r[i] in lines;
      var j :| 0 <= j < |lines| && lines[j] == r[i];
    }
  }

  lemma {:induction false} ApplyUpdatesOk(s: Store, lines: seq<Line>, updates: seq<(string, nat)>)
    requires LinesOk(s, lines)
    ensures LinesOk(s, ApplyUpdates(lines, updates))
    decreases |updates|
  {
    if |updates| > 0 {
      if updates[0].1 == 0 {
        RemoveIdsOk(s, lines, {updates[0].0});
      }
      ApplyUpdatesOk(s, UpdateOne(lines, updates[0].0, updates[0].1), updates[1..]);
    }
  }

  /** Every update names a line of the cart with a whole, non-negative quantity. */
  predicate UpdatesOk(c: CartRecord, updates: seq<LineUpdate>) {
    forall i :: 0 <= i < |updates| ==> ValidUpdate(c, updates[i]).Some?
  }

  function Pairs(c: CartRecord, updates: seq<LineUpdate>): (r: seq<(string, nat)>)
    requires UpdatesOk(c, updates)
    ensures |r| == |updates|
  {
    seq(|updates|, i requires 0 <= i < |updates| => ValidUpdate(c, updates[i]).value)
  }

  /** `cartLinesUpdate`: each named line takes its new quantity; quantity 0 removes the line. */
  function UpdateLines(s: Store, faults: Faults, cartId: string, updates: seq<LineUpdate>): (r: Reply)
    ensures r.store.currency == s.currency && r.store.catalogue == s.catalogue
    ensures Valid(s) ==> Valid(r.store)
    ensures r.store.metafields == s.metafields
    ensures LinesUpdate(cartId) in faults ==> r == Reply(s, FaultBody(faults[LinesUpdate(cartId)]))
    ensures LinesUpdate(cartId) !in faults && cartId !in s.carts ==> r == Reply(s, Answer(None, None, [NoSuchCart]))
    ensures LinesUpdate(cartId) !in faults && cartId in s.carts && !UpdatesOk(s.carts[cartId], updates) ==>
      r == Reply(s, Answer(None, None, [NoSuchLine]))
    ensures LinesUpdate(cartId) !in faults && cartId in s.carts && UpdatesOk(s.carts[cartId], updates) ==>
      && r.store.carts.Keys == s.carts.Keys
      && (forall id :: id in s.carts && id != cartId ==> r.store.carts[id] == s.carts[id])
      && r.store.carts[cartId].lines == ApplyUpdates(s.carts[cartId].lines, Pairs(s.carts[cartId], updates))
      && r.body == Answer(None, Some(Snapshot(s.currency, r.store.carts[cartId])), [])
  {
    if LinesUpdate(cartId) in faults then Reply(s, FaultBody(faults[LinesUpdate(cartId)]))
    else if cartId !in s.carts then Reply(s, Answer(None, None, [NoSuchCart]))
    else
      var c := s.carts[cartId];
      if !UpdatesOk(c, updates) then
        Reply(s, Answer(None, None, [NoSuchLine]))
      else
        var pairs := Pairs(c, updates);
        var c' := c.(lines := ApplyUpdates(c.lines, pairs), updatedAt := s.now);
        var s' := s.(carts := s.carts[cartId := c']);
        assert Valid(s) ==> Valid(s') by {
          if Valid(s) {
            ApplyUpdatesOk(s, c.lines, pairs);
          }
        }
        Reply(s', Answer(None, Some(Snapshot(s'.currency, c')), []))
  }

  /** Every id is a string naming a line of the cart. */
  predicate NamesLines(c: CartRecord, lineIds: seq<Value>) {
    forall i :: 0 <= i < |lineIds| ==> lineIds[i].Str? && HasLine(c, lineIds[i].s)
  }

  /** The line ids given as strings. */
  function IdSet(lineIds: seq<Value>): set<string> {
    set i | 0 <= i < |lineIds| && lineIds[i].Str? :: lineIds[i].s
  }

  /** `cartLinesRemove`: every named line must exist; all of them are removed. */
  function RemoveLines(s: Store, faults: Faults, cartId: string, lineIds: seq<Value>): (r: Reply)
    ensures r.store.currency == s.currency && r.store.catalogue == s.catalogue
    ensures Valid(s) ==> Valid(r.store)
    ensures r.store.metafields == s.metafields
    ensures LinesRemove(cartId) in faults ==> r == Reply(s, FaultBody(faults[LinesRemove(cartId)]))
    ensures LinesRemove(cartId) !in faults && cartId !in s.carts ==> r == Reply(s, Answer(None, None, [NoSuchCart]))
    ensures LinesRemove(cartId) !in faults && cartId in s.carts && !NamesLines(s.carts[cartId], lineIds) ==>
      r == Reply(s, Answer(None, None, [NoSuchLine]))
    ensures LinesRemove(cartId) !in faults && cartId in s.carts && NamesLines(s.carts[cartId], lineIds) ==>
      && r.store.carts.Keys == s.carts.Keys
      && (forall id :: id in s.carts && id != cartId ==> r.store.carts[id] == s.carts[id])
      && r.store.carts[cartId].lines == RemoveIds(s.carts[cartId].lines, IdSet(lineIds))
      && r.body == Answer(None, Some(Snapshot(s.currency, r.store.carts[cartId])), [])
  {
    if LinesRemove(cartId) in faults then Reply(s, FaultBody(faults[LinesRemove(cartId)]))
    else if cartId !in s.carts then Reply(s, Answer(None, None, [NoSuchCart]))
    else
      var c := s.carts[cartId];
      if !NamesLines(c, lineIds) then
        Reply(s, Answer(None, None, [NoSuchLine]))
      else
        var ids := IdSet(lineIds);
        var c' := c.(lines := RemoveIds(c.lines, ids), updatedAt := s.now);
        var s' := s.(carts := s.carts[cartId := c']);
        assert Valid(s) ==> Valid(s') by {
          if Valid(s) {
            RemoveIdsOk(s, c.lines, ids);
          }
        }
        Reply(s', Answer(None, Some(Snapshot(s'.currency, c')), []))
  }

  /** The answer of `cartBuyerIdentityUpdate`: the cart id, its checkout URL and the buyer. */
  datatype BuyerAnswer =
    | BuyerRejected(message: string)
    | BuyerBody(errors: Option<seq<string>>, cart: Option<(string, string, Buyer)>, userErrors: seq<string>)

  /** `cartBuyerIdentityUpdate`: the customer of a known access token becomes the cart's buyer. */
  function UpdateBuyer(s: Store, faults: Faults, cartId: Value, token: Value): (r: (Store, BuyerAnswer))
    ensures r.0.currency == s.currency && r.0.catalogue == s.catalogue
    ensures Valid(s) ==> Valid(r.0)
    ensures r.0.metafields == s.metafields
  {
    match IdText(cartId)
    case None => (s, BuyerBody(Some([InvalidVariables]), None, []))
    case Some(id) =>
      if BuyerUpdate(id) in faults then
        (s, match faults[BuyerUpdate(id)]
            case Unreachable(m) => BuyerRejected(m)
            case Errors(ms) => BuyerBody(Some(ms), None, []))
      else if id !in s.carts then (s, BuyerBody(None, None, [NoSuchCart]))
      else if !(token.Str? && token.s in s.accessTokens) then (s, BuyerBody(None, None, [InvalidToken]))
      else
        var c' := s.carts[id].(buyer := s.accessTokens[token.s], updatedAt := s.now);
        (s.(carts := s.carts[id := c']), BuyerBody(None, Some((id, c'.checkoutUrl, c'.buyer)), []))
  }

  // ---------------------------------------------------------------- properties

  /** Adding lines keeps the cart's lines and appends one per input, naming the input's variant
      with the input's quantity. */
  lemma AddLinesAppends(s: Store, faults: Faults, cartId: string, inputs: seq<LineInput>)
    requires Valid(s) && LinesAdd(cartId) !in faults && cartId in s.carts && Resolves(s, inputs)
    ensures var r := AddLines(s, faults, cartId, inputs);
      && cartId in r.store.carts
      && var before := s.carts[cartId].lines;
      && var after := r.store.carts[cartId].lines;
      && |after| == |before| + |inputs|
      && after[..|before|] == before
      && (forall i :: 0 <= i < |inputs| ==>
            after[|before| + i].merchandise.id == inputs[i].merchandiseId.s
            && after[|before| + i].quantity as real == inputs[i].quantity.n.r)
  {
    var before := s.carts[cartId].lines;
    NewLinesAll(s, s.serial, inputs);
    var added := NewLines(s, s.serial, inputs);
    var after := before + added;
    forall i | 0 <= i < |inputs|
      ensures after[|before| + i].merchandise.id == inputs[i].merchandiseId.s
      ensures after[|before| + i].quantity as real == inputs[i].quantity.n.r
    {
      assert after[|before| + i] == added[i];
      var q := inputs[i].quantity.n.r;
      assert (q.Floor as nat) as real == q;
    }
    assert after[..|before|] == before;
  }
}
