/** What the cart session manager promises across calls: a customer keeps one cart, clearing the
    pointer starts a fresh one, and merging appends the guest's lines to the customer's cart. Each
    is stated for the service as evidently intended and, where the wiring changes the outcome, as
    the code is wired. */
module CartSession {
  import opened Wrappers
  import opened JsText
  import opened JsNumber
  import opened JsValue
  import opened CustomerService
  import opened CartPlatform
  import opened CartService

  /** No call the session manager makes for customer `c` fails in transport. */
  ghost predicate Reliable(faults: Faults, c: string) {
    && MetafieldsRead(c) !in faults && MetafieldWrite(c) !in faults && CartCreate !in faults
    && forall id :: CartQuery(id) !in faults
  }

  lemma CartGidNotEmpty(n: nat)
    ensures CartGid(n) != ""
  {
    assert |CartGid(n)| >= |CartGidPrefix|;
  }

  /** A customer whose pointer names a stored cart gets that cart, and nothing changes. */
  lemma FollowsPointer(w: Wiring, s: Store, faults: Faults, c: string, email: Value, g: string)
    requires c in s.metafields && MetafieldsRead(c) !in faults && CartQuery(g) !in faults
    requires FirstCartPointer(s.metafields[c]) == Some(g) && g != "" && g in s.carts
    ensures GetOrCreateUserCartWith(w, s, faults, Some(c), email)
            == Step(s, Ok(FormatCartResponse(Snapshot(s.currency, s.carts[g]))))
  {
    assert ReadMetafields(s, faults, Some(c)) == Ok(Some(s.metafields[c]));
    assert GetUserCartId(s, faults, Some(c)) == Some(g);
  }

  /** With the metafield writer wired, asking twice for a known customer's cart gives the same
      cart, and the second call changes nothing. */
  lemma SecondCallSameCart(s: Store, faults: Faults, c: string, email: Value)
    requires Valid(s) && c in s.metafields && Reliable(faults, c)
    ensures var first := GetOrCreateUserCartWith(Intended, s, faults, Some(c), email);
      && first.result.Ok?
      && GetOrCreateUserCartWith(Intended, first.store, faults, Some(c), email) == first
  {
    var p := GetUserCartId(s, faults, Some(c));
    assert p == FirstCartPointer(s.metafields[c]) by {
      assert ReadMetafields(s, faults, Some(c)) == Ok(Some(s.metafields[c]));
    }
    if p.Some? && p.value != "" && p.value in s.carts {
      FollowsPointer(Intended, s, faults, c, email, p.value);
    } else {
      assert GetOrCreateUserCartWith(Intended, s, faults, Some(c), email)
          == CreateAndPoint(Intended, s, faults, Some(c), email);
      CreatedCartIsFollowed(s, faults, c, email);
    }
  }

  /** A cart created and pointed at is the one the next call follows. */
  lemma CreatedCartIsFollowed(s: Store, faults: Faults, c: string, email: Value)
    requires Valid(s) && c in s.metafields && Reliable(faults, c)
    ensures var created := CreateAndPoint(Intended, s, faults, Some(c), email);
      && created.result.Ok?
      && GetOrCreateUserCartWith(Intended, created.store, faults, Some(c), email) == created
  {
    var created := CreateAndPoint(Intended, s, faults, Some(c), email);
    var g := CartGid(s.serial);
    CartGidNotEmpty(s.serial);
    assert CartQuery(g) !in faults;
    FollowsPointer(Intended, created.store, faults, c, email, g);
  }

  /** As wired, a customer without a pointer gets a new cart, stored under the next fresh id,
      and still has no pointer afterwards. */
  lemma AsWrittenCreates(s: Store, faults: Faults, customer: Option<string>, email: Value)
    requires Valid(s) && GetUserCartId(s, faults, customer).None? && CartCreate !in faults
    ensures var r := GetOrCreateUserCartWith(AsWritten, s, faults, customer, email);
      && r.result.Ok? && r.result.value.cartId == CartGid(s.serial)
      && Valid(r.store) && r.store.serial > s.serial
      && s.carts.Keys <= r.store.carts.Keys && CartGid(s.serial) in r.store.carts
      && GetUserCartId(r.store, faults, customer).None?
  {
    var r := GetOrCreateUserCartWith(AsWritten, s, faults, customer, email);
    assert r == CreateAndPoint(AsWritten, s, faults, customer, email);
    assert r.store.metafields == s.metafields;
    assert ReadMetafields(r.store, faults, customer) == ReadMetafields(s, faults, customer);
  }

  /** As wired, no pointer is ever saved: a customer without one gets a new cart on every call,
      and the previous one is left behind on the platform. */
  lemma AsWrittenCreatesEveryCall(s: Store, faults: Faults, customer: Option<string>, email: Value)
    requires Valid(s) && GetUserCartId(s, faults, customer).None? && CartCreate !in faults
    ensures var first := GetOrCreateUserCartWith(AsWritten, s, faults, customer, email);
      var second := GetOrCreateUserCartWith(AsWritten, first.store, faults, customer, email);
      && first.result.Ok? && second.result.Ok?
      && first.result.value.cartId != second.result.value.cartId
      && first.result.value.cartId in second.store.carts && second.result.value.cartId in second.store.carts
  {
    AsWrittenCreates(s, faults, customer, email);
    var s1 := GetOrCreateUserCartWith(AsWritten, s, faults, customer, email).store;
    AsWrittenCreates(s1, faults, customer, email);
    if CartGid(s.serial) == CartGid(s1.serial) {
      CartGidInjective(s.serial, s1.serial);
      assert false;
    }
  }



  /** With the writer wired, clearing succeeds, and the next request for the customer's cart
      starts a new, empty cart that did not exist before. */
  lemma ClearThenFreshCart(s: Store, faults: Faults, c: string, email: Value)
    requires Valid(s) && c in s.metafields && Reliable(faults, c)
    ensures var cleared := ClearUserCartWith(Intended, s, faults, Some(c));
      && cleared.result == Ok(true)
      && var next := GetOrCreateUserCartWith(Intended, cleared.store, faults, Some(c), email);
      && next.result.Ok? && next.result.value.items == [] && next.result.value.cartId !in s.carts
  {
    var cleared := ClearUserCartWith(Intended, s, faults, Some(c));
    var s1 := cleared.store;
    assert s1 == s.(metafields := s.metafields[c := Upsert(s.metafields[c], CartNamespace, CartKey, "", CartMetafieldType, s.serial)],
                    serial := s.serial + 1);
    PointerAfterUpsert(s.metafields[c], "", s.serial);
    assert ReadMetafields(s1, faults, Some(c)) == Ok(Some(s1.metafields[c]));
    assert GetUserCartId(s1, faults, Some(c)) == Some("");
    var next := GetOrCreateUserCartWith(Intended, s1, faults, Some(c), email);
    assert next == CreateAndPoint(Intended, s1, faults, Some(c), email);
    assert next.result.value.cartId == CartGid(s.serial + 1);
  }

  /** The guest line a merged item came from: same variant, same quantity. */
  predicate SameLine(item: LineItem, line: Line) {
    item.variant.id == line.merchandise.id && item.quantity == line.quantity
  }

  /** `after` is `before` followed by a copy of each guest line: same variant, same quantity. */
  ghost predicate Copies(before: seq<Line>, after: seq<Line>, guest: seq<Line>) {
    exists added: seq<Line> ::
      after == before + added && |added| == |guest|
      && forall i :: 0 <= i < |guest| ==> added[i].merchandise == guest[i].merchandise && added[i].quantity == guest[i].quantity
  }

  /** The guest cart's items, as `getCart` answers them, are its lines in order. */
  lemma GuestView(s: Store, faults: Faults, g: string)
    requires g in s.carts && CartQuery(g) !in faults
    ensures GetCartByValue(s, faults, Str(g)).Ok? && GetCartByValue(s, faults, Str(g)).value.Some?
    ensures var items := GetCartByValue(s, faults, Str(g)).value.value.items;
      |items| == |s.carts[g].lines| && forall i :: 0 <= i < |items| ==> SameLine(items[i], s.carts[g].lines[i])
  {
  }

  /** Every guest item turns into an add-lines input that a store with the same catalogue resolves
      to the same variant and quantity. */
  lemma GuestInputsResolve(s: Store, s1: Store, g: string, items: seq<LineItem>)
    requires Valid(s) && g in s.carts && s1.catalogue == s.catalogue
    requires |items| == |s.carts[g].lines| && forall i :: 0 <= i < |items| ==> SameLine(items[i], s.carts[g].lines[i])
    ensures ToLineInputs(GuestItems(items)).Ok?
    ensures var inputs := ToLineInputs(GuestItems(items)).value;
      && |inputs| == |items|
      && forall i :: 0 <= i < |inputs| ==>
           && inputs[i] == LineInput(Str(items[i].variant.id), Num(Finite(items[i].quantity as real)))
           && Resolve(s1, inputs[i]).Some?
  {
    var xs := GuestItems(items);
    var inputs := ToLineInputs(xs).value;
    forall i | 0 <= i < |inputs|
      ensures inputs[i] == LineInput(Str(items[i].variant.id), Num(Finite(items[i].quantity as real)))
      ensures Resolve(s1, inputs[i]).Some?
    {
      var line := s.carts[g].lines[i];
      assert LineOk(s, line);
      assert Ok(inputs[i]) == ToLineInput(xs[i]);
      assert Truthy(Num(Finite(items[i].quantity as real)));
      assert IsIntegral(items[i].quantity as real);
    }
  }

  /** The customer cart `u` as stored in `s`, ready to take lines. */
  ghost predicate StoredCart(s: Store, faults: Faults, u: CartView) {
    && Valid(s) && u.cartId in s.carts && LinesAdd(u.cartId) !in faults
    && u == FormatCartResponse(Snapshot(s.currency, s.carts[u.cartId]))
  }

  /** A cart's answer lists one item per line. */
  lemma ItemsOf(currency: string, c: CartRecord)
    ensures FormatCartResponse(Snapshot(currency, c)).items == LineItems(LineNodes(c.lines))
  {
  }

  /** The items of two runs of lines are the items of each, in order. */
  lemma ItemsAppend(a: seq<Line>, b: seq<Line>)
    ensures LineItems(LineNodes(a + b)) == LineItems(LineNodes(a)) + LineItems(LineNodes(b))
  {
    LineNodesAppend(a, b);
    LineItemsAppend(LineNodes(a), LineNodes(b));
  }

  /** Lines that copy some guest lines show as one item per guest line, with the same variant and
      quantity. */
  lemma CopiedItems(added: seq<Line>, guest: seq<Line>)
    requires |added| == |guest|
    requires forall i :: 0 <= i < |guest| ==>
      added[i].merchandise == guest[i].merchandise && added[i].quantity == guest[i].quantity
    ensures |LineItems(LineNodes(added))| == |guest|
    ensures forall i :: 0 <= i < |guest| ==> SameLine(LineItems(LineNodes(added))[i], guest[i])
  {
    forall i | 0 <= i < |guest|
      ensures SameLine(LineItems(LineNodes(added))[i], guest[i])
    {
      LineNodesAt(added, i);
      LineItemsAt(LineNodes(added), i);
    }
  }


  /** The lines the platform adds for the guest items copy the guest lines: same variant, same
      quantity. */
  lemma GuestLinesCopied(s: Store, s1: Store, g: string, items: seq<LineItem>)
    requires Valid(s) && g in s.carts && s1.catalogue == s.catalogue
    requires |items| == |s.carts[g].lines| && forall i :: 0 <= i < |items| ==> SameLine(items[i], s.carts[g].lines[i])
    ensures ToLineInputs(GuestItems(items)).Ok? && Resolves(s1, ToLineInputs(GuestItems(items)).value)
    ensures var added := NewLines(s1, s1.serial, ToLineInputs(GuestItems(items)).value);
      && |added| == |items|
      && forall i :: 0 <= i < |items| ==>
           added[i].merchandise == s.carts[g].lines[i].merchandise && added[i].quantity == s.carts[g].lines[i].quantity
  {
    GuestInputsResolve(s, s1, g, items);
    var inputs := ToLineInputs(GuestItems(items)).value;
    var added := NewLines(s1, s1.serial, inputs);
    forall i | 0 <= i < |items|
      ensures added[i].merchandise == s.carts[g].lines[i].merchandise
      ensures added[i].quantity == s.carts[g].lines[i].quantity
    {
      NewLinesAt(s1, s1.serial, inputs, i);
      assert LineOk(s, s.carts[g].lines[i]);
      assert ((items[i].quantity as real).Floor as nat) == items[i].quantity;
    }
  }

  /** The cart `addToCart` answers with, when given the guest items: the customer's lines followed
      by the copies. */
  lemma AddGuestResult(s: Store, s1: Store, faults: Faults, u: CartView, g: string, items: seq<LineItem>)
    requires Valid(s) && g in s.carts && s1.catalogue == s.catalogue && StoredCart(s1, faults, u)
    requires |items| == |s.carts[g].lines| && forall i :: 0 <= i < |items| ==> SameLine(items[i], s.carts[g].lines[i])
    ensures ToLineInputs(GuestItems(items)).Ok? && Resolves(s1, ToLineInputs(GuestItems(items)).value)
    ensures var inputs := ToLineInputs(GuestItems(items)).value;
      var reply := AddLines(s1, faults, u.cartId, inputs);
      && u.cartId in reply.store.carts
      && reply.store.carts[u.cartId].lines == s1.carts[u.cartId].lines + NewLines(s1, s1.serial, inputs)
      && AddToCart(s1, faults, u.cartId, GuestItems(items))
         == Step(reply.store, Ok(FormatCartResponse(Snapshot(s1.currency, reply.store.carts[u.cartId]))))
  {
    GuestInputsResolve(s, s1, g, items);
    AddResolved(s1, faults, u.cartId, GuestItems(items));
  }

  /** Items that all resolve are added to a stored cart, and the answer is the updated cart. */
  lemma AddResolved(s: Store, faults: Faults, cartId: string, xs: seq<Value>)
    requires Valid(s) && cartId in s.carts && LinesAdd(cartId) !in faults
    requires ToLineInputs(xs).Ok? && Resolves(s, ToLineInputs(xs).value)
    ensures var inputs := ToLineInputs(xs).value;
      var reply := AddLines(s, faults, cartId, inputs);
      && cartId in reply.store.carts
      && reply.store.carts[cartId].lines == s.carts[cartId].lines + NewLines(s, s.serial, inputs)
      && AddToCart(s, faults, cartId, xs)
         == Step(reply.store, Ok(FormatCartResponse(Snapshot(s.currency, reply.store.carts[cartId]))))
  {
  }

  /** The lines `cartLinesAdd` appends for the guest items copy the guest cart. */
  lemma AddGuestCopies(s: Store, s1: Store, faults: Faults, u: CartView, g: string, items: seq<LineItem>)
    requires Valid(s) && g in s.carts && s1.catalogue == s.catalogue && StoredCart(s1, faults, u)
    requires |items| == |s.carts[g].lines| && forall i :: 0 <= i < |items| ==> SameLine(items[i], s.carts[g].lines[i])
    ensures ToLineInputs(GuestItems(items)).Ok? && Resolves(s1, ToLineInputs(GuestItems(items)).value)
    ensures var reply := AddLines(s1, faults, u.cartId, ToLineInputs(GuestItems(items)).value);
      u.cartId in reply.store.carts
      && Copies(s1.carts[u.cartId].lines, reply.store.carts[u.cartId].lines, s.carts[g].lines)
  {
    GuestLinesCopied(s, s1, g, items);
    var inputs := ToLineInputs(GuestItems(items)).value;
    var added := NewLines(s1, s1.serial, inputs);
    assert AddLines(s1, faults, u.cartId, inputs).store.carts[u.cartId].lines == s1.carts[u.cartId].lines + added;
    AppendCopies(s1.carts[u.cartId].lines, added, s.carts[g].lines);
  }

  /** Appending lines that repeat the guest's merchandise and quantities is a copy. */
  lemma AppendCopies(before: seq<Line>, added: seq<Line>, guest: seq<Line>)
    requires |added| == |guest|
    requires forall i :: 0 <= i < |guest| ==>
      added[i].merchandise == guest[i].merchandise && added[i].quantity == guest[i].quantity
    ensures Copies(before, before + added, guest)
  {
  }

  /** Once both carts are known, a non-empty guest cart other than the customer's is merged:
      the platform appends a copy of each guest line to the customer's cart, and the answer is
      that cart as stored. */
  lemma MergeIntoAppends(s: Store, s1: Store, faults: Faults, u: CartView, g: string, guestView: CartView)
    requires Valid(s) && g in s.carts && s1.catalogue == s.catalogue && StoredCart(s1, faults, u)
    requires u.cartId != g && |guestView.items| > 0
    requires |guestView.items| == |s.carts[g].lines|
    requires forall i :: 0 <= i < |guestView.items| ==> SameLine(guestView.items[i], s.carts[g].lines[i])
    ensures var guest := s.carts[g].lines;
      var r := MergeInto(s1, faults, u, Some(guestView), Str(g));
      && r.result.Ok? && r.result.value.merged && r.result.value.itemsMerged == Some(|guest|)
      && u.cartId in r.store.carts
      && r.result.value.cart == FormatCartResponse(Snapshot(r.store.currency, r.store.carts[u.cartId]))
      && Copies(s1.carts[u.cartId].lines, r.store.carts[u.cartId].lines, guest)
  {
    assert !StrictEquals(Str(u.cartId), Str(g));
    AddGuestItems(s, s1, faults, u, g, guestView.items);
    var added := AddToCart(s1, faults, u.cartId, GuestItems(guestView.items));
    var n := |guestView.items|;
    assert MergeInto(s1, faults, u, Some(guestView), Str(g))
        == Step(added.store, Ok(MergeResult(added.result.value, true, Some(n), MergedMessage(n))));
  }

  /** Adding the guest items to the customer's stored cart succeeds, answers with the updated
      cart, and appends a copy of the guest lines. */
  lemma AddGuestItems(s: Store, s1: Store, faults: Faults, u: CartView, g: string, items: seq<LineItem>)
    requires Valid(s) && g in s.carts && s1.catalogue == s.catalogue && StoredCart(s1, faults, u)
    requires |items| == |s.carts[g].lines| && forall i :: 0 <= i < |items| ==> SameLine(items[i], s.carts[g].lines[i])
    ensures var added := AddToCart(s1, faults, u.cartId, GuestItems(items));
      && added.result.Ok? && u.cartId in added.store.carts
      && added.result.value == FormatCartResponse(Snapshot(added.store.currency, added.store.carts[u.cartId]))
      && Copies(s1.carts[u.cartId].lines, added.store.carts[u.cartId].lines, s.carts[g].lines)
  {
    AddGuestResult(s, s1, faults, u, g, items);
    AddGuestCopies(s, s1, faults, u, g, items);
  }

  /** Merging a non-empty guest cart into a different customer cart `u` (whatever
      `getOrCreateUserCart` answered) appends a copy of each guest line, same variant and same
      quantity, to the customer's cart, and answers with that cart as stored. */
  lemma MergeAppendsGuestLines(w: Wiring, s: Store, faults: Faults, customer: Option<string>, g: string, email: Value,
                               s1: Store, u: CartView)
    requires Valid(s) && g in s.carts && g != "" && |s.carts[g].lines| > 0 && CartQuery(g) !in faults
    requires GetOrCreateUserCartWith(w, s, faults, customer, email) == Step(s1, Ok(u))
    requires u.cartId != g && LinesAdd(u.cartId) !in faults
    ensures var guest := s.carts[g].lines;
      var r := MergeCartsOnLoginWith(w, s, faults, customer, Str(g), email);
      && r.result.Ok? && r.result.value.merged && r.result.value.itemsMerged == Some(|guest|)
      && u.cartId in s1.carts && u.cartId in r.store.carts
      && u == FormatCartResponse(Snapshot(s1.currency, s1.carts[u.cartId]))
      && r.result.value.cart == FormatCartResponse(Snapshot(r.store.currency, r.store.carts[u.cartId]))
      && Copies(s1.carts[u.cartId].lines, r.store.carts[u.cartId].lines, guest)
  {
    GuestView(s, faults, g);
    var guestView := GetCartByValue(s, faults, Str(g)).value.value;
    assert StoredCart(s1, faults, u);
    assert MergeCartsOnLoginWith(w, s, faults, customer, Str(g), email) == MergeInto(s1, faults, u, Some(guestView), Str(g));
    MergeIntoAppends(s, s1, faults, u, g, guestView);
  }

  /** What the merged answer shows: the customer's items, then one item per guest line with the
      guest line's variant and quantity. */
  lemma CopiesShowAsItems(currency: string, c: CartRecord, c': CartRecord, guest: seq<Line>)
    requires Copies(c.lines, c'.lines, guest)
    ensures var before := FormatCartResponse(Snapshot(currency, c)).items;
      var after := FormatCartResponse(Snapshot(currency, c')).items;
      && |after| == |before| + |guest| && after[..|before|] == before
      && forall i :: 0 <= i < |guest| ==> SameLine(after[|before| + i], guest[i])
  {
    var added: seq<Line> :| c'.lines == c.lines + added && |added| == |guest|
      && forall i :: 0 <= i < |guest| ==> added[i].merchandise == guest[i].merchandise && added[i].quantity == guest[i].quantity;
    AppendedItems(c.lines, added, c'.lines, guest);
    ItemsOf(currency, c);
    ItemsOf(currency, c');
  }

  /** Lines followed by copies of guest lines show as the lines' items followed by one item per
      guest line. */
  lemma AppendedItems(lines: seq<Line>, added: seq<Line>, after: seq<Line>, guest: seq<Line>)
    requires after == lines + added && |added| == |guest|
    requires forall i :: 0 <= i < |guest| ==>
      added[i].merchandise == guest[i].merchandise && added[i].quantity == guest[i].quantity
    ensures var before := LineItems(LineNodes(lines));
      var items := LineItems(LineNodes(after));
      && |items| == |before| + |guest| && items[..|before|] == before
      && forall i :: 0 <= i < |guest| ==> SameLine(items[|before| + i], guest[i])
  {
    ItemsAppend(lines, added);
    CopiedItems(added, guest);
    var before := LineItems(LineNodes(lines));
    var tail := LineItems(LineNodes(added));
    assert (before + tail)[..|before|] == before;
    forall i | 0 <= i < |guest|
      ensures SameLine((before + tail)[|before| + i], guest[i])
    {
      assert (before + tail)[|before| + i] == tail[i];
    }
  }

  // ---------------------------------------------------------------- line mutations

  /** Removing lines from a known cart, naming only lines it has, answers the cart's other lines
      in their order: the item list is the cart's lines with the removed ones dropped. */
  lemma RemoveKeepsOtherLines(s: Store, faults: Faults, cartId: string, lineIds: seq<Value>)
    requires LinesRemove(cartId) !in faults && cartId in s.carts && NamesLines(s.carts[cartId], lineIds)
    ensures var r := RemoveFromCart(s, faults, cartId, lineIds);
      var kept := RemoveIds(s.carts[cartId].lines, IdSet(lineIds));
      && r.result.Ok? && |r.result.value.items| == |kept|
      && (forall k :: 0 <= k < |kept| ==>
            r.result.value.items[k].lineId == kept[k].id && r.result.value.items[k].quantity == kept[k].quantity)
      && (forall k :: 0 <= k < |kept| ==> r.result.value.items[k].lineId !in IdSet(lineIds))
  {
    var reply := RemoveLines(s, faults, cartId, lineIds);
    var node := Snapshot(s.currency, reply.store.carts[cartId]);
    assert reply.body == Answer(None, Some(node), []);
    assert Mutated(reply.body) == Ok(FormatCartResponse(node));
  }

  /** Updating one line of a known cart to quantity `q`: with `q` above zero only that line's
      quantity changes; with zero the line is removed and the others stay in order. */
  lemma UpdateSetsQuantity(s: Store, faults: Faults, cartId: string, id: string, q: nat)
    requires LinesUpdate(cartId) !in faults && cartId in s.carts && HasLine(s.carts[cartId], id)
    ensures var item := Obj(map["lineId" := Str(id), "quantity" := Num(Finite(q as real))]);
      var r := UpdateCartItems(s, faults, cartId, [item]);
      var before := s.carts[cartId].lines;
      && r.result.Ok? && cartId in r.store.carts
      && r.result.value == FormatCartResponse(Snapshot(s.currency, r.store.carts[cartId]))
      && var after := r.store.carts[cartId].lines;
      && (q == 0 ==> after == RemoveIds(before, {id}))
      && (q > 0 ==> |after| == |before|
                    && forall i :: 0 <= i < |before| ==>
                         after[i] == if before[i].id == id then before[i].(quantity := q) else before[i])
  {
    var item := Obj(map["lineId" := Str(id), "quantity" := Num(Finite(q as real))]);
    var c := s.carts[cartId];
    SingleUpdateParsed(c, id, q);
    var updates := ToLineUpdates([item]).value;
    assert ApplyUpdates(c.lines, [(id, q)]) == ApplyUpdates(UpdateOne(c.lines, id, q), []);
    var reply := UpdateLines(s, faults, cartId, updates);
    assert Mutated(reply.body) == Ok(FormatCartResponse(Snapshot(s.currency, reply.store.carts[cartId])));
  }

  /** The one-item list of `UpdateSetsQuantity` reads as a single valid update of line `id`. */
  lemma SingleUpdateParsed(c: CartRecord, id: string, q: nat)
    requires HasLine(c, id)
    ensures var item := Obj(map["lineId" := Str(id), "quantity" := Num(Finite(q as real))]);
      && ToLineUpdates([item]).Ok?
      && UpdatesOk(c, ToLineUpdates([item]).value)
      && Pairs(c, ToLineUpdates([item]).value) == [(id, q)]
  {
    var item := Obj(map["lineId" := Str(id), "quantity" := Num(Finite(q as real))]);
    var u := LineUpdate(Str(id), Num(Finite(q as real)));
    assert Prop(item, "lineId") == Some(Str(id)) && Prop(item, "quantity") == Some(Num(Finite(q as real)));
    assert ToLineUpdates([item]).Ok? && ToLineUpdates([item]).value[0] == u;
    assert ToLineUpdates([item]).value == [u];
    assert (q as real).Floor == q;
    assert ValidUpdate(c, u) == Some((id, q));
  }

  /** With a known cart and a known access token, the buyer update succeeds: the token's customer
      becomes the cart's buyer, its lines stay, and no other cart changes. An unknown token is
      refused with the platform's user error and changes nothing. */
  lemma BuyerIdentitySet(s: Store, faults: Faults, id: string, token: string)
    requires BuyerUpdate(id) !in faults && id in s.carts
    ensures var r := UpdateCartBuyerIdentity(s, faults, Str(id), Str(token));
      && (token in s.accessTokens ==>
            && r.result == Ok(BuyerUpdateView(id, s.carts[id].checkoutUrl, s.accessTokens[token]))
            && r.store.carts.Keys == s.carts.Keys
            && r.store.carts[id].buyer == s.accessTokens[token]
            && r.store.carts[id].lines == s.carts[id].lines
            && forall other :: other in s.carts && other != id ==> r.store.carts[other] == s.carts[other])
      && (token !in s.accessTokens ==> r == Step(s, Err(InvalidToken)))
  {
  }
}
