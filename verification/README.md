# Shopify storefront backend: a Dafny model of its core

This project models the request-handling core of a small Express backend for a Shopify store.
Each part below is modelled as pure functions, and the properties the code promises are proved
about them.

- **Cart session manager** (`utils/cartService.js`, `routes/cart.js`):
  - a customer's current cart is remembered in the customer metafield `custom`/`cart_id`;
  - `getOrCreateUserCart` follows that pointer, or creates a cart and re-points it;
  - a guest cart is merged into the customer's cart on login;
  - the cart routes validate their requests before calling the service.
- **Client token cache** (`utils/tokenManager.js`, `routes/auth.js`):
  - at most one token per client id, reused for twelve hours;
  - dropped by `POST /logout`;
  - an hourly sweep removes expired entries.
- **Customer service** (`utils/customerService.js`, `routes/user.js`):
  - finding, creating and updating customers through the Admin API;
  - the payloads those calls send;
  - the customer response shape with its grouped metafields;
  - the user routes that validate and forward profile and address changes.
- **Catalogue shaping** (`routes/collections.js`, `routes/search.js`):
  - products are shaped into stock status, total inventory, price and compare-at ranges, tags,
    descriptions, selected options and variant images;
  - collections are listed (custom first, then smart);
  - a collection is looked up by handle;
  - the product search filters results by a case-insensitive substring match.
- **Login decisions** (`routes/login.js`):
  - credential and password-length checks;
  - the Storefront email login, which registers an unknown customer and logs them in;
  - the phone login through a synthetic `<digits>@phone.user` email;
  - the names taken from an identity provider, and which customer lookup a provider login runs;
  - the admin "session" derived from the customer found.

The remote systems are inputs:
- **Storefront.** The Storefront API is modelled as a store of carts, customer metafields and a
  variant catalogue (module `CartPlatform`). Transport failures come in as a map of faults.
- **Admin API and identity provider.** Every answer of these is a parameter of the function that
  consumes it: a `Result` carrying the answer or the message of the error the call threw.
- **JavaScript semantics the routes rely on.** These are modelled explicitly: truthiness, `||`,
  `isNaN`, `Number(string)`, property access on `null`, `trim`, `toLowerCase`, `split`/`join`,
  `includes` and the two regular-expression replacements.

Modules, in dependency order:
- `Wrappers`
- `JsNumber`, `JsText`, `JsValue`, `Validation`
- `CustomerService`
- `CartPlatform`, `CartService`, `CartSession`, `CartRoutes`
- `TokenCache`, `AuthRoutes`
- `UserRoutes`
- `Catalogue`, `CollectionRoutes`, `SearchRoute`
- `LoginRoutes`

Some modules come in two wirings, picked by a `Wiring` parameter:
- **as written:** a function imported from another module that does not export it is
  `undefined`, and calling it throws;
- **intended:** the import is resolved.

The `## Findings` section explains why.

Places where the code behaves differently from what its own checks and names suggest:
- **`GET /user/:userId` `!customer` test.** That route tests `!customer` to answer 404, but
  `getCustomerWithMetafields` has already thrown on a missing customer: setting `metafields` on
  `undefined` fails. So the route answers 500 there, and 404 only for a platform 404.
- **Search query.** The search lower-cases the query but does not trim it. The blank check uses
  `trim` only to reject the request.
- **Phone login catch.** In the phone login, the login after a registration runs under the same
  `catch` as the create call. A failure of that login that carries `errors` is answered
  "Registration failed", although the account was created.

## Model

| member | source | states |
|---|---|---|
| `JsText.TrimEmptyIff` | routes/search.js:25 | `query.trim() === ""` holds exactly when the query is white space only |
| `JsText.ToLowerIdempotent` | routes/search.js:47-53 | lower-casing twice is lower-casing once, so the search term and the fields compare case-insensitively |
| `JsText.IndexOf` | routes/login.js:262 | the first occurrence of the separator, and no earlier one; `None` when it never occurs |
| `JsText.SplitJoin` | routes/collections.js:207 | joining the split pieces with the separator gives back the string |
| `JsText.SplitPiecesFree` | routes/collections.js:207 | no piece of a split contains the separator |
| `JsText.NatToStringInjective` | routes/login.js:25 | distinct ids print as distinct numerals |
| `JsText.DigitsOnly` | routes/login.js:880 | `replace(/[^0-9]/g, '')` keeps only decimal digits and never lengthens the text |
| `JsText.DigitsOnlyAppend` | routes/login.js:880 | keeping digits distributes over concatenation, so the digits keep their order |
| `JsText.StripTags` | routes/collections.js:203 | the stripped text is no longer than the input and has no `<`…`>` span left; text without `<` is unchanged |
| `JsText.StripTagsKeepsText` | routes/collections.js:203 | text before the first `<` is kept as it is, ahead of the stripped rest |
| `JsText.StripTagsDropsTag` | routes/collections.js:203 | a closed `<`…`>` span at the front is removed and nothing else changes |
| `JsText.StripTagsKeepsRest` | routes/collections.js:203 | text, then a tag, then more: the text is kept, the tag dropped, and the rest stripped |
| `JsText.StripTagsIdempotent` | routes/search.js:50 | stripping tags twice is stripping them once |
| `JsNumber.DigitStringValue` | routes/cart.js:28 | a non-empty digit string converts to its decimal value |
| `JsNumber.NoDigitIsNaN` | routes/cart.js:28 | a string with no digit that is not blank or `Infinity` converts to NaN |
| `JsValue.DigitParamIsNumber` | routes/cart.js:28 | a digit-only id parameter passes `!userId \|\| isNaN(userId)` |
| `JsValue.NumberTextRoundTrip` | utils/cartService.js:13-19 | a customer id printed with `String` reads back as the same number |
| `Validation.FirstFailure` | routes/cart.js:117-126 | the item loop passes exactly when every item passes; otherwise its answer is the first failing item's verdict |
| `CustomerService.NamespaceOf` | utils/customerService.js:278 | a metafield's group is never empty; it is its own namespace when that is given and non-empty, and "custom" otherwise |
| `CustomerService.ViewOf` | utils/customerService.js:283-295 | `json`/`json_string` values are parsed when they parse and kept as text otherwise; id and type are copied |
| `CustomerService.FormatMetafields` | utils/customerService.js:271-274 | no metafields, or an empty list, group to `{}` |
| `CustomerService.GroupLastWins` | utils/customerService.js:277-296 | a (namespace, key) is present exactly when some metafield names it, and it holds the last such metafield's view |
| `CustomerService.GroupNamespaces` | utils/customerService.js:277-281 | the groups are exactly the namespaces of the metafields |
| `CustomerService.FormatCustomerResponse` | utils/customerService.js:306-323 | each response field is the customer's or its documented default; `fullName` is the trimmed "first last" |
| `CustomerService.FullNameOfNoNames` | utils/customerService.js:312 | a customer without names has the empty full name |
| `CustomerService.FullNameOfTwoNames` | utils/customerService.js:312 | two names without outer spaces give "first last" |
| `CustomerService.DropUndefined` | utils/customerService.js:101-106 | exactly the defined fields survive, unchanged |
| `CustomerService.CreatePayload` | utils/customerService.js:86-106 | email and phone only when truthy, names defaulting to "", `verified_email` = `!!email`, no welcome mail, no id, nothing `undefined` |
| `CustomerService.UpdatePayload` | utils/customerService.js:171-193 | the id and exactly the profile fields the update defines, with their values; `updateCustomer` (modelled as `UpdateCustomer`) puts exactly this payload and returns the platform's answer |
| `CustomerService.GetCustomerMetafields` | utils/customerService.js:136-143 | the listing's metafields, `[]` when it has none or the call fails |
| `CustomerService.FindCustomer` | utils/customerService.js:25-74 | a failed search is rethrown with its message; no hit is `null`; otherwise the first hit, with its metafields attached when asked for |
| `CustomerService.GetCustomerWithMetafields` | utils/customerService.js:151-162 | succeeds exactly when the lookup returns a customer, which comes back with the listing's metafields; a missing customer throws |
| `CustomerService.DefaultEmpty` | utils/customerService.js:207 | a default parameter replaces only `undefined` |
| `CustomerService.FindOrCreate` | utils/customerService.js:207-230 | a found customer is returned as not new; with none, the created one is new; a failure of either call is rethrown |
| `CustomerService.FindOrCreateByEmail` | utils/customerService.js:207-230 | an existing customer is the search's first hit; a new one is what the create call returned for the email payload, after an empty search |
| `CustomerService.FindOrCreateByPhone` | utils/customerService.js:240-263 | the same for the phone payload |
| `CartPlatform.CartGidInjective` | utils/cartService.js:170-182 | cart ids minted from distinct serials differ |
| `CartPlatform.Snapshot` | utils/cartService.js:194-274 | the queried cart has one line per stored line, the summed quantity, and a total equal to the subtotal plus tax |
| `CartPlatform.AddLines` | utils/cartService.js:287-378 | `cartLinesAdd` fails on a fault, an unknown cart or an unresolvable input, and otherwise keeps the store valid and only that cart changes |
| `CartPlatform.AddLinesAppends` | utils/cartService.js:358-361 | adding keeps the cart's lines and appends one per input with the input's variant and quantity |
| `CartPlatform.UpsertPresent` | utils/cartService.js:31-43 | after writing the pointer metafield, exactly one entry carries its namespace and key when at most one did before; the number of such entries never drops and never becomes zero |
| `CartPlatform.Upsert` | utils/cartService.js:31-43 | writing a metafield overwrites every entry with its namespace and key and leaves the others alone; a new entry is appended exactly when none matched |
| `CartPlatform.UpdateLines` | utils/cartService.js:391-487 | `cartLinesUpdate` fails on a fault, an unknown cart or an unknown line; otherwise the cart's lines get the new quantities, zero removing a line, no other cart changes, and the answer is the updated cart |
| `CartPlatform.RemoveLines` | utils/cartService.js:495-586 | `cartLinesRemove` fails on a fault, an unknown cart or an unknown line; otherwise exactly the named lines go, no other cart changes, and the answer is the updated cart |
| `CartPlatform.RemoveIds` | utils/cartService.js:498-575 | keeps exactly the lines whose ids are not removed, in their order; removing ids no line has changes nothing |
| `CartPlatform.RemoveIdsAppend` | utils/cartService.js:498-575 | removing from two runs of lines removes from each run |
| `CartPlatform.SumQuantitiesAppend` | utils/cartService.js:636-660 | the total quantity of two runs of lines is the sum of theirs |
| `CartService.FormatCartLineItem` | utils/cartService.js:593-628 | the item keeps the line's id, quantity, variant, product, images and cost |
| `CartService.FormatCartResponse` | utils/cartService.js:635-662 | one item per line in order, totals and tax kept |
| `CartService.FormatCartRoundTrip` | utils/cartService.js:593-662 | reading the response back gives the cart the platform answered: the shape loses nothing |
| `CartService.LineItemsAppend` | utils/cartService.js:636 | formatting two runs of lines is formatting each |
| `CartService.Settle` | utils/cartService.js:172-182 | a transport failure, the first GraphQL error and the first user error throw, in that order; otherwise the cart |
| `CartService.Mutated` | utils/cartService.js:368-378 | a mutation answer settles like a query, and a null cart throws when formatted |
| `CartService.GetCart` | utils/cartService.js:194-279 | the formatted cart, `null` for an id the platform does not know, an error on a fault |
| `CartService.GetCartByValue` | utils/cartService.js:194-279 | a value GraphQL rejects as an ID fails the call; other values act as their text |
| `CartService.CreateCart` | utils/cartService.js:84-187 | a new empty cart under a fresh id, or the failure; the store stays valid |
| `CartService.ToLineInput` | utils/cartService.js:358-361 | an item becomes its variant id and its quantity, or 1 when that is falsy; a missing item throws |
| `CartService.ToLineInputs` | utils/cartService.js:358-361 | one input per item, in order; it fails exactly when some item is missing |
| `CartService.AddToCart` | utils/cartService.js:287-383 | builds the inputs and adds them; metafields untouched, store kept valid |
| `CartService.ToLineUpdates` | utils/cartService.js:462-465 | one update per item with the line id and quantity as given |
| `CartService.UpdateCartItems` | utils/cartService.js:391-487 | malformed items fail before any call; well-formed ones answer what `cartLinesUpdate` did, as the formatted cart or its first error; the store stays valid |
| `CartService.RemoveFromCart` | utils/cartService.js:495-586 | the answer is what `cartLinesRemove` did, as the formatted cart or its first error; a fault leaves the store as it was; the store stays valid |
| `CartService.UpdateCartBuyerIdentity` | utils/cartService.js:744-794 | the GraphQL error first, then the first user error, then a null cart fail the call; success exactly otherwise, naming the requested cart and the access token's customer as buyer |
| `CartService.FirstCartPointer` | utils/cartService.js:16-19 | the value of the first `custom`/`cart_id` metafield, and `None` exactly when there is none |
| `CartService.GetUserCartId` | utils/cartService.js:13-24 | `null` when the listing fails or holds no pointer; otherwise the value of the first pointer metafield |
| `CartService.SaveUserCartId` | utils/cartService.js:31-43 | a failed write is swallowed; as written nothing is saved; carts never change |
| `CartService.PointerAfterUpsert` | utils/cartService.js:31-43 | a saved pointer is the first pointer found afterwards |
| `CartService.CreateAndPoint` | utils/cartService.js:62-72 | the new empty cart is returned whether or not the cart pointer was saved; when the write works, the saved cart pointer refers to it |
| `CartService.GetOrCreateUserCartWith` | utils/cartService.js:51-77 | a pointer to a stored cart returns it and changes nothing; no usable pointer creates a cart; the answer is the cart as stored |
| `CartService.ClearUserCartWith` | utils/cartService.js:723-736 | as written it always fails with the missing-writer error; a success reports `true`; no cart is ever changed |
| `CartService.ItemOf` | utils/cartService.js:699-702 | a guest line becomes `{ variantId, quantity }` |
| `CartService.GuestItems` | utils/cartService.js:699-702 | one item per guest line, in order |
| `CartService.MergeInto` | utils/cartService.js:678-712 | an absent or empty guest cart, or the user's own cart, is not merged and nothing changes; a merge reports the items added |
| `CartService.MergeCartsOnLoginWith` | utils/cartService.js:672-717 | a guest cart that cannot be read fails the merge; otherwise the merge runs on the customer's cart |
| `CartSession.FollowsPointer` | utils/cartService.js:51-61 | a pointer to a stored cart is followed and nothing changes |
| `CartSession.SecondCallSameCart` | utils/cartService.js:51-77 | with the writer wired, asking twice for a customer's cart gives the same cart |
| `CartSession.CreatedCartIsFollowed` | utils/cartService.js:62-72 | the cart created and pointed at is the one the next call follows |
| `CartSession.AsWrittenCreates` | utils/cartService.js:62-72 | as written, a customer without a pointer gets a new cart under a fresh id |
| `CartSession.AsWrittenCreatesEveryCall` | utils/cartService.js:2 | as written, each call for that customer creates yet another cart |
| `CartSession.ClearThenFreshCart` | utils/cartService.js:723-736 | with the writer wired, clearing succeeds and the next request creates a fresh cart |
| `CartSession.GuestView` | utils/cartService.js:674-676 | the guest cart's items, as read, are its lines in order |
| `CartSession.GuestLinesCopied` | utils/cartService.js:699-705 | the lines added for the guest items copy the guest lines' variants and quantities |
| `CartSession.MergeIntoAppends` | utils/cartService.js:697-712 | a non-empty guest cart other than the customer's is appended, line for line |
| `CartSession.MergeAppendsGuestLines` | utils/cartService.js:672-717 | after a merge the customer's cart holds its old lines followed by a copy of each guest line |
| `CartSession.CopiesShowAsItems` | utils/cartService.js:707-711 | the merged answer shows the customer's items, then one item per guest line |
| `CartSession.RemoveKeepsOtherLines` | utils/cartService.js:495-586 | removing lines of a known cart answers its other lines, in their order, with their quantities |
| `CartSession.UpdateSetsQuantity` | utils/cartService.js:391-487 | updating one line changes only its quantity, and quantity 0 removes it and keeps the rest in order |
| `CartSession.BuyerIdentitySet` | utils/cartService.js:744-794 | a known token makes its customer the cart's buyer and changes no other cart; an unknown token is refused and changes nothing |
| `CartRoutes.ItemCheck` | routes/cart.js:117-126 | a missing item throws; otherwise the route's rule (variant id, positive or non-negative quantity) decides, in the source's order |
| `CartRoutes.CheckItems` | routes/cart.js:351-366 | the loop passes exactly when every item passes, else the first failing item's verdict is the answer |
| `CartRoutes.ItemsCheck` | routes/cart.js:109-115 | a missing, non-array or empty `items` is rejected before the loop |
| `CartRoutes.Refuse` | routes/cart.js:118-123 | a rejection answers 400 with its message, a throw 500 with the route's message; the store is untouched |
| `CartRoutes.Answer` | routes/cart.js:133-143 | a service success answers the cart with the route's status; a failure answers 500 |
| `CartRoutes.UserEmail` | routes/cart.js:75 | the token's email when truthy, else `null` |
| `CartRoutes.Perform` | routes/cart.js:128-131 | the cart operation keeps the store valid and the metafields unchanged |
| `CartRoutes.OnUserCart` | routes/cart.js:128-131 | the operation runs on the cart `getOrCreateUserCart` returned |
| `CartRoutes.MergeRoute` | routes/cart.js:24-55 | a non-numeric `userId` answers 400; a merge answer reports zero items exactly when nothing was merged |
| `CartRoutes.GetUserCartRoute` | routes/cart.js:63-91 | a non-numeric id answers 400 and changes nothing; otherwise the user's cart |
| `CartRoutes.AddUserItemsRoute` | routes/cart.js:97-146 | id, then items, then the add; every 400 leaves the store unchanged |
| `CartRoutes.UpdateUserItemsRoute` | routes/cart.js:152-207 | same order with the update rule; every 400 leaves the store unchanged |
| `CartRoutes.RemoveUserItemsRoute` | routes/cart.js:213-252 | a non-empty `lineIds` array is required; every 400 leaves the store unchanged |
| `CartRoutes.RequestBuyer` | routes/cart.js:265-269 | a buyer identity is sent exactly when the email or the access token is truthy |
| `CartRoutes.CreateCartRoute` | routes/cart.js:260-284 | a new empty cart answered 201 when the platform accepts it |
| `CartRoutes.GetCartRoute` | routes/cart.js:290-325 | an empty id answers 400, an unknown cart 404, a stored cart 200; nothing changes |
| `CartRoutes.OnCartById` | routes/cart.js:331-384 | the id, then the request check, then the decoded id, then the operation |
| `CartRoutes.AddItemsRoute` | routes/cart.js:331-384 | a present quantity must be a number of at least 1; a 400 changes nothing |
| `CartRoutes.UpdateItemsRoute` | routes/cart.js:390-443 | every item needs a line id and a quantity of at least 0; a 400 changes nothing |
| `CartRoutes.RemoveItemsRoute` | routes/cart.js:449-486 | a non-empty `lineIds` array is required; a 400 changes nothing |
| `CartRoutes.CheckoutRoute` | routes/cart.js:492-540 | with a token the buyer is updated first; a missing cart answers 404; otherwise the checkout URL |
| `CartRoutes.UserIdParam` | routes/cart.js:67-72 | a digit-only id is accepted; one without any digit is refused with 400 |
| `CartRoutes.ZeroQuantityRules` | routes/cart.js:117-126 | quantity 0 passes the user add route and the update routes but not the by-id add route |
| `CartRoutes.UserAddIgnoresQuantity` | routes/cart.js:117-126 | the user add route accepts an item whatever its quantity |
| `CartRoutes.UserCartRouteStable` | routes/cart.js:63-91 | asking twice for a known customer's cart answers the same cart |
| `CartRoutes.GetCartRouteFindsStored` | routes/cart.js:305-312 | on a reachable platform the route answers 404 exactly when no cart is stored under the id |
| `TokenCache.GetToken` | utils/tokenManager.js:19-54 | a live entry is returned as cached with the cache unchanged; otherwise the signed token is stored for twelve hours; other clients untouched |
| `TokenCache.Invalidate` | utils/tokenManager.js:57-63 | true exactly when the client had an entry, which is then gone; no other entry changes |
| `TokenCache.Sweep` | utils/tokenManager.js:7-15 | the hourly loop leaves exactly the entries not yet past expiry, unchanged |
| `TokenCache.SecondRequestReuses` | utils/tokenManager.js:19-30 | a second request before expiry returns the same token from the cache |
| `TokenCache.ExpiryBoundary` | utils/tokenManager.js:10-23 | an entry expiring exactly now survives the sweep but is no longer handed out |
| `TokenCache.CountChanges` | utils/tokenManager.js:43-68 | a first token adds one to the active count; invalidating an existing one removes one |
| `TokenCache.ActiveCount` | utils/tokenManager.js:66-68 | the count is the number of cached clients, expired or not, and zero exactly for an empty cache |
| `TokenCache.SweepLowersCount` | utils/tokenManager.js:7-15 | a sweep never raises the count, and lowers it exactly when some entry had expired |
| `TokenCache.InvalidatedIsReissued` | utils/tokenManager.js:19-63 | after an invalidation the next request signs a new token |
| `AuthRoutes.EnvValue` | routes/auth.js:11-12 | an unset variable reads as `undefined`, a set one as its text |
| `AuthRoutes.Issued` | routes/auth.js:17-25 | the message names a cached token exactly when it was cached |
| `AuthRoutes.PostToken` | routes/auth.js:6-32 | a token is issued exactly when both credentials strictly equal the configured ones; otherwise 401 and no change |
| `AuthRoutes.CredentialsMatch` | routes/auth.js:10-13 | with both variables set, a match means both values are exactly those strings; with one unset, only a missing value matches it |
| `AuthRoutes.PostLogout` | routes/auth.js:35-58 | a missing client id answers 400; otherwise 200 when a token was dropped, 404 when there was none |
| `AuthRoutes.LogoutThenNewToken` | routes/auth.js:35-58 | after a successful logout the next `/token` issues a new token |
| `AuthRoutes.LogoutStatus` | routes/auth.js:45-57 | a logout answers 200 exactly when the client had a token |
| `AuthRoutes.UnsetCredentialsIssue` | routes/auth.js:10-13 | with both variables unset, a request carrying no credentials is issued a token |
| `AuthRoutes.PostTokenConfigured` | routes/auth.js:10-13 | with the intended guard, a token is issued only against set credentials that the request matches |
| `UserRoutes.MapError` | routes/user.js:129-149 | a platform 404 answers 404 and a 422 the route's 422 (when it has one); everything else 500 |
| `UserRoutes.GetUserRoute` | routes/user.js:19-65 | a non-numeric id answers 400; a found customer is answered with its metafields; a missing one ends in 500 |
| `UserRoutes.UserNotFoundOnlyUpstream` | routes/user.js:34-57 | `GET /:userId` answers 404 only for a platform 404 |
| `UserRoutes.MetafieldCheck` | routes/user.js:97-104 | a metafield passes exactly when it has a truthy `key` and a defined `value`; a missing one throws |
| `UserRoutes.MetafieldsCheck` | routes/user.js:96-106 | only a non-empty array is checked; it passes exactly when every metafield does, else the first failure |
| `UserRoutes.UpdateData` | routes/user.js:108-113 | exactly the defined basic fields with their values, plus the metafields when present |
| `UserRoutes.UpdateAnswer` | routes/user.js:116-149 | a returned customer is answered formatted; an error is mapped; a missing customer fails reading its id |
| `UserRoutes.UpdateUserRoute` | routes/user.js:71-151 | id, then something to update, then the metafields, then the update with the payload built from the request |
| `UserRoutes.HasBasicFields` | routes/user.js:85 | some update field is present exactly when one of `firstName`, `lastName`, `email`, `phone` is truthy; an empty body has none |
| `CustomerService.UpdateSendsOnlyNamedFields` | utils/customerService.js:171-193 | `updateCustomer` sends only the id and the four named fields: updates agreeing on them get the same answer |
| `UserRoutes.UpdateSendsDefinedFields` | routes/user.js:108-116 | the update payload carries the id and exactly the basic fields the request defines |
| `UserRoutes.AddressData` | routes/user.js:180-192 | every address field of the request, `undefined` ones included |
| `UserRoutes.IdsCheck` | routes/user.js:238-250 | the user id, then the address id, must be numeric |
| `UserRoutes.AddressCall` | routes/user.js:194-224 | as written the call throws "is not a function"; as intended its answer or its mapped error |
| `UserRoutes.AddAddressRoute` | routes/user.js:159-226 | 201 only as intended, after validation, when the platform adds the address |
| `UserRoutes.UpdateAddressRoute` | routes/user.js:232-311 | 200 only as intended, when the platform updates the address |
| `UserRoutes.DeleteAddressRoute` | routes/user.js:317-365 | 200 exactly when validated, wired and deleted; a 422 is "Cannot delete the default address" |
| `UserRoutes.SetDefaultAddressRoute` | routes/user.js:371-414 | a platform 422 is not answered specially |
| `UserRoutes.AddressRoutesFailAsWritten` | routes/user.js:4-13 | as written, every address route answers 400 or 500 |
| `UserRoutes.AddressRoutesIntended` | routes/user.js:159-414 | as intended, a validated address request succeeds exactly when the platform call does |
| `Catalogue.Description` | routes/collections.js:203 | present exactly when the body is given, and then the body with its tags stripped: no tag span left and no longer than the body |
| `Catalogue.SeoDescription` | routes/collections.js:290 | present exactly when the body is given, at most 160 characters |
| `Catalogue.SeoIsDescriptionPrefix` | routes/collections.js:288-291 | the SEO description is the description's first 160 characters |
| `Catalogue.DescriptionStable` | routes/collections.js:203 | stripping a description again changes nothing |
| `Catalogue.Tags` | routes/collections.js:207 | no tags exactly when the tag string is missing or empty |
| `Catalogue.TagsRoundTrip` | routes/collections.js:207 | joining the tags with ", " gives back the tag string, and no tag contains ", " |
| `Catalogue.StockOf` | routes/collections.js:193-196 | in stock exactly when inventory is positive; orderable when not but backorders are allowed; otherwise out of stock |
| `Catalogue.TotalInventoryAppend` | routes/collections.js:183-185 | the total inventory of two runs of variants is the sum of theirs |
| `Catalogue.SumInventory` | routes/collections.js:184 | the left-to-right `reduce` computes the total inventory |
| `Catalogue.AvailableIffSomeVariant` | routes/collections.js:183-196 | with no oversold variant, a product is available exactly when some variant is |
| `Catalogue.NonNegativeTotal` | routes/collections.js:183-185 | with no oversold variant, the total is non-negative and zero exactly when every variant is at zero |
| `Catalogue.TotalInventory` | routes/collections.js:183-185 | an empty product totals 0; with no oversold variant, no variant holds more than the total |
| `Catalogue.ProductStock` | routes/collections.js:183-196 | in stock exactly when the total is above zero; orderable exactly when it is not but some variant takes backorders; out of stock otherwise |
| `Catalogue.OversoldHidesStock` | routes/collections.js:183-196 | a variant at -10 hides another's 5 in stock: the product is out of stock while a variant is in stock |
| `Catalogue.MinOf` | routes/collections.js:175 | the minimum is an element and below all others |
| `Catalogue.MaxOf` | routes/collections.js:176 | the maximum is an element and above all others |
| `Catalogue.Prices` | routes/collections.js:156-163 | exactly the readable, non-negative variant prices |
| `Catalogue.ComparePrices` | routes/collections.js:165-170 | exactly the positive compare-at prices |
| `Catalogue.PriceRange` | routes/collections.js:175-176 | the lowest and highest price, zero for both when there is none |
| `Catalogue.CompareAtRange` | routes/collections.js:177-178 | the compare-at range, or the price range when no compare-at price is positive |
| `Catalogue.CompareAtFallback` | routes/collections.js:177-178 | without a positive compare-at price the ranges coincide; with one, the compare-at range is positive and ordered |
| `Catalogue.VariantPrice` | routes/collections.js:263 | a missing price reads as 0 and a parsed one as its cents; the price is unreadable (NaN) exactly when it cannot be parsed |
| `Catalogue.VariantCompareAt` | routes/collections.js:266-269 | the compare-at price is `null` exactly when it is missing |
| `Catalogue.OptionName` | routes/collections.js:271-273 | reading a name from missing options throws; otherwise the option's name or "Option i" |
| `Catalogue.SelectedOptions` | routes/collections.js:270-274 | the given option values in order, each with a non-empty name; fails exactly when some is given and the options are missing |
| `Catalogue.FindImage` | routes/collections.js:277-278 | the first image with the id, `None` exactly when no image has it |
| `Catalogue.VariantImageOf` | routes/collections.js:275-279 | an image object exactly when the variant names a non-zero image id and the product has images |
| `Catalogue.MapAll` | routes/collections.js:151 | `map` with a throwing callback: all results in order, or the error of a failing element |
| `Catalogue.FormatVariant` | routes/collections.js:242-281 | stock status from inventory and policy, available unless out of stock; fails only on its options |
| `Catalogue.FormatProduct` | routes/collections.js:151-293 | stock, availability, total inventory, tags, descriptions and ranges as defined above, one view per variant |
| `CollectionRoutes.Views` | routes/collections.js:34-69 | one view per collection, each tagged with its kind and id |
| `CollectionRoutes.ListCollectionsRoute` | routes/collections.js:20-84 | 500 when either listing fails; otherwise the custom collections then the smart ones, with the total |
| `CollectionRoutes.ListingCustomFirst` | routes/collections.js:34-69 | every custom collection comes before every smart one |
| `CollectionRoutes.FindCollection` | routes/collections.js:101-125 | the first custom hit, else the first smart hit, else none |
| `CollectionRoutes.CollectionRoute` | routes/collections.js:101-320 | 404 exactly when no collection matches; 500 when the products fail; otherwise the collection with its products shaped |
| `CollectionRoutes.CustomLookupWins` | routes/collections.js:101-112 | when a custom collection matches, the smart lookup does not matter |
| `CollectionRoutes.FailedCustomLookupIgnored` | routes/collections.js:108-110 | a custom lookup that throws acts like one that finds nothing |
| `SearchRoute.Filter` | routes/search.js:47-68 | the kept products are exactly the matching ones, never more than given |
| `SearchRoute.KeptIffSomeTextContains` | routes/search.js:47-68 | a product is kept exactly when the title, the stripped description, the type, the vendor, the tags, the id's numeral or some SKU, lower-cased, contains the lower-cased query |
| `SearchRoute.FilterAppend` | routes/search.js:48 | filtering keeps the order of the products it keeps |
| `SearchRoute.FilterProducts` | routes/search.js:48-68 | the loop over the products computes the filter |
| `SearchRoute.SearchProductsRoute` | routes/search.js:20-218 | 400 exactly for a blank query; 500 on a failed fetch; otherwise the filtered products shaped, with their count |
| `SearchRoute.QueryCaseIgnored` | routes/search.js:47 | the search does not depend on the query's case |
| `SearchRoute.TitleCaseIgnored` | routes/search.js:49 | nor on the title's case |
| `SearchRoute.TitleHitKept` | routes/search.js:61 | a product whose title contains the query is in the results |
| `LoginRoutes.CredentialsCheck` | routes/login.js:589-602 | passes exactly when both are truthy and the password is long enough; a missing one is reported first |
| `LoginRoutes.StringPasswordLength` | routes/login.js:597 | a string password is too short exactly when it has fewer than five characters |
| `LoginRoutes.NumericPasswordNotMeasured` | routes/login.js:597 | a numeric password has no length and is never refused as short |
| `LoginRoutes.AfterRegistration` | routes/login.js:710-744 | 201 with the new token exactly when the login after registering returns one |
| `LoginRoutes.RegisterThenLogin` | routes/login.js:650-744 | a clean registration (created, no user errors) hands over to the login after it, and only then can the answer be a login; a thrown registration answers 500, GraphQL errors "Failed to register", user errors "Registration failed" with them, no customer "Failed to create customer account" |
| `LoginRoutes.EmailLoginRoute` | routes/login.js:584-780 | failed validation answers 400; a thrown login 500; GraphQL errors "Failed to login"; `UNIDENTIFIED_CUSTOMER` registers; no token "Invalid email or password"; a token without user errors 200; `isNewUser` holds exactly for 201 |
| `LoginRoutes.EmailLoginOutcomes` | routes/login.js:644-770 | 201 exactly when `UNIDENTIFIED_CUSTOMER`, a clean registration and a token on re-login; 200 exactly when the first login returns a token and no user errors |
| `LoginRoutes.OtherUserErrorsRefused` | routes/login.js:746-752 | other user errors are answered "Login failed" with the errors, without registering |
| `LoginRoutes.PhoneEmail` | routes/login.js:880 | the synthetic email is the phone's digits then "@phone.user"; a non-string phone throws |
| `LoginRoutes.PhoneEmailIgnoresFormatting` | routes/login.js:880 | phones with the same digits get the same email |
| `LoginRoutes.PhoneEmailOfDigits` | routes/login.js:880 | a digit-only phone is the email's local part |
| `LoginRoutes.CreateCaught` | routes/login.js:952-962 | an error carrying `errors` answers "Registration failed" with them; any other answers 500 |
| `LoginRoutes.RegisterByPhone` | routes/login.js:880-962 | 201 exactly when the customer is created and the login with the synthetic email returns a token |
| `LoginRoutes.CreatedButReportedRefused` | routes/login.js:912-962 | a login that fails after the create is answered "Registration failed" when its error carries `errors` |
| `LoginRoutes.MobileLoginRoute` | routes/login.js:788-978 | a found customer whose login returns a token and no user errors is answered 200 with it, and only such a customer; a thrown login 500; a customer not found goes to registration; a new user only through registration |
| `LoginRoutes.ExistingPhoneCustomerNotRecreated` | routes/login.js:840-876 | once the found customer logs in, nothing is created |
| `LoginRoutes.FailedLoginRegisters` | routes/login.js:860-880 | a found customer whose login fails is registered anew |
| `LoginRoutes.NameParts` | routes/login.js:262 | the first name contains no space |
| `LoginRoutes.NamePartsRoundTrip` | routes/login.js:262-266 | first name, a space and the rest give back the provider's name; without a space the rest is empty |
| `LoginRoutes.ProviderNames` | routes/login.js:350-353 | names in the request win; otherwise the provider's name is split |
| `LoginRoutes.AdminLogin` | routes/login.js:13-34 | a session exactly when a customer was found, named after its id; email before phone; a failed lookup is reported |
| `LoginRoutes.SessionNamesCustomer` | routes/login.js:25 | equal session strings name the same customer id |
| `LoginRoutes.MessageOr` | routes/login.js:290-293 | the error's message, or the fallback when it is empty |
| `LoginRoutes.ProviderLookup` | routes/login.js:356-380 | every provider looks up by email when there is one; only Facebook falls back to the phone |
| `LoginRoutes.OnlyFacebookUsesPhone` | routes/login.js:259 | Google and Apple never look a customer up by phone |
| `LoginRoutes.CustomerStep` | routes/login.js:256-272 | a failed find-or-create is swallowed: no customer and not new |
| `LoginRoutes.ExchangeRoute` | routes/login.js:240-295 | a missing code answers 400; a failed exchange 401; otherwise 200 with the admin login, "Account created" exactly for a new customer |
| `LoginRoutes.FacebookWithoutContact` | routes/login.js:374-377 | a Facebook user without email or phone is welcomed without a customer record |
| `LoginRoutes.MobileVerifyRoute` | routes/login.js:162-207 | phone and code are required; a failed check answers 401; a verified request is always welcomed, with the customer find-or-create gave for the phone (none when it failed), new exactly when it created one |
| `LoginRoutes.MobileVerifyCustomer` | routes/login.js:173-199 | a verified phone is welcomed with the formatted find-or-create customer, or none when find-or-create failed; new exactly when it created one |

## Left out

- One-time passwords by email, the OAuth start routes, and session validate/refresh/logout (`routes/login.js:45-159`, `212-237`, `495-576`). They only relay calls into the identity provider's SDK, and their outcomes are not decided by this code.
- Email OTP verification (`routes/login.js:73-129`). It depends on the Multipass module and its secret, which are not part of this model. The route is also broken as written, and that is not modelled either. `routes/login.js:8` imports `customerAccessTokenCreateWithMultipass`, which `utils/customerService.js` does not export (its export list is at lines 325-337). So the call at `routes/login.js:109` always throws. The catch at lines 122-128 then answers 401, after find-or-create has already run and may have created a customer.
- Apple exchange (`routes/login.js:435-490`). It is the Google exchange with another provider name. `LoginRoutes.ExchangeRoute` covers it through `Provider`.
- JSON Web Token signing. The signed token is a parameter of `TokenCache.GetToken`.
- Reading the clock. Readings are integer parameters.
- The hourly `setInterval`. `TokenCache.Sweep` is its body; the scheduling is not modelled.
- Prices. They are integer cents. `parseFloat`, IEEE doubles and `toFixed(2)` are not modelled, and neither are prices with more than two decimals.
- `Promise.all` over the two collection listings. When both fail, the model reports the custom listing's error.
- `limit` query parameters and `parseInt`. Whatever was fetched is an input.
- `decodeURIComponent` of the cart id. It is a parameter (`UriDecoder`).
- Express, the `verifyToken` middleware, logging, and the images, options, dates and other pass-through fields of the product and collection shapes.
- The HTTP status of a platform error. It is an input (`ApiError.status`).
- `formatAddress`, and the address objects the platform returns, which are passed through as values.
- An empty top-level GraphQL `errors` array is not modelled: the code would throw reading `errors[0].message`. `LoginReply.LoginErrors` and `Body.errors` carry the first message or a fixed one.
- Strings are sequences of characters. UTF-16 code units, Unicode case mapping beyond Latin-1 and `JSON.parse` are not modelled: the parser is a parameter (`JsonParser`).
- `Number(string)` is exact over the reals. Rounding to doubles, and numerals of 21 digits or more printed in exponent form, are outside the model.
- `CartService.GetCartByValue`: only strings and integral numbers are accepted as GraphQL IDs. Other values fail with a fixed message rather than the platform's.
- `LoginRoutes.CustomerStep`: a throwing `formatCustomerResponse` is not modelled, since the customer shape is total here.

## Findings

| source | as written | input that shows it | evidently intended | confidence | as-written member | corrected member |
|---|---|---|---|---|---|---|
| utils/cartService.js:2 | imports `updateCustomerMetafield`, which `utils/customerService.js` does not export, so `saveUserCartId` always fails silently and `clearUserCart` always throws | any customer without a cart pointer asking for their cart twice | the pointer to the new cart is saved, so the second request returns the same cart, and clearing succeeds | not executed | `CartSession.AsWrittenCreatesEveryCall` | `CartSession.SecondCallSameCart` |
| utils/cartService.js:723-736 | `clearUserCart` calls the same missing writer | any call of `clearUserCart` | the cart pointer is reset to "" and the next request creates a fresh cart | not executed | `CartService.ClearUserCartWith` | `CartSession.ClearThenFreshCart` |
| routes/user.js:4-13 | imports `addCustomerAddress`, `updateCustomerAddress`, `deleteCustomerAddress`, `setDefaultAddress` and `formatAddress`, none of which the customer service exports | any valid address request, e.g. `POST /1/address` with address1, city and country | the platform call runs and its answer or status is reported | not executed | `UserRoutes.AddressRoutesFailAsWritten` | `UserRoutes.AddressRoutesIntended` |
| routes/auth.js:10-13 | compares the credentials with `===` against `process.env`, so with `CLIENT_ID` and `CLIENT_SECRET` unset a request without credentials matches | `POST /token` with an empty body on a server without those variables | unset credentials match nothing | not executed | `AuthRoutes.UnsetCredentialsIssue` | `AuthRoutes.PostTokenConfigured` |
