/** The user routes: request validation, the update data handed to the customer service, and the
    mapping of a platform error's status to the route's answer. The address routes call four
    functions (and a formatter) the customer service does not export; `Wiring` selects between
    that code as written, where each call throws, and as evidently intended, where the
    platform's answer (already formatted) is an input. */
module UserRoutes {
  import opened Wrappers
  import opened JsValue
  import opened CustomerService
  import opened Validation

  datatype UserResponse =
    | Failure(status: nat, message: string, error: Option<string>)
    | Unprocessable(message: string, errors: Value)
    | CustomerReply(note: Option<string>, data: CustomerView)
    | AddressReply(status: nat, message: string, address: Value)
    | AddressDeleted(message: string)

  function StatusOf(r: UserResponse): nat {
    match r
    case Failure(status, _, _) => status
    case Unprocessable(_, _) => 422
    case CustomerReply(_, _) => 200
    case AddressReply(status, _, _) => status
    case AddressDeleted(_) => 200
  }

  const InvalidUserId := "Invalid user ID provided"
  const InvalidAddressId := "Invalid address ID provided"
  const UserNotFound := "User not found"
  const UserOrAddressNotFound := "User or address not found"
  const NoUpdateFields := "At least one field (firstName, lastName, email, phone) or metafields is required for update"
  const MetafieldShape := "Each metafield must have 'key' and 'value' properties"
  const AddressFieldsRequired := "address1, city, and country are required fields"
  const NoAddressFields := "At least one address field is required for update"
  const InvalidData := "Invalid data provided"
  const InvalidAddressData := "Invalid address data provided"
  const DefaultAddressKept := "Cannot delete the default address"

  const UserUpdated := "User details updated successfully"
  const AddressAdded := "Address added successfully"
  const AddressUpdated := "Address updated successfully"
  const AddressRemoved := "Address deleted successfully"
  const DefaultAddressSet := "Default address updated successfully"

  const FetchFailed := "Failed to fetch user details"
  const UpdateFailed := "Failed to update user details"
  const AddAddressFailed := "Failed to add address"
  const UpdateAddressFailed := "Failed to update address"
  const DeleteAddressFailed := "Failed to delete address"
  const SetDefaultFailed := "Failed to set default address"

  // ---------------------------------------------------------------- errors

  /** How a route's catch block answers a platform 422: not specially, with the answer's
      `errors`, or with a message only. */
  datatype On422 = Generic | WithErrors(message: string) | MessageOnly(message: string)

  /** A route's catch block: a platform 404 answers 404 with the route's message, a 422 as the
      route says, and anything else (an error without a platform answer included) 500. */
  function MapError(e: ApiError, notFound: string, on422: On422, failed: string): (r: UserResponse)
    ensures StatusOf(r) == 404 <==> e.status == Some(404)
    ensures StatusOf(r) == 404 ==> r == Failure(404, notFound, None)
    ensures StatusOf(r) == 422 <==> e.status == Some(422) && !on422.Generic?
    ensures e.status == Some(422) && on422.WithErrors? ==> r == Unprocessable(on422.message, Or(e.errors, Null))
    ensures e.status == Some(422) && on422.MessageOnly? ==> r == Failure(422, on422.message, None)
    ensures StatusOf(r) != 404 && StatusOf(r) != 422 ==> r == Failure(500, failed, Some(e.message))
  {
    if e.status == Some(404) then Failure(404, notFound, None)
    else if e.status == Some(422) && on422.WithErrors? then Unprocessable(on422.message, Or(e.errors, Null))
    else if e.status == Some(422) && on422.MessageOnly? then Failure(422, on422.message, None)
    else Failure(500, failed, Some(e.message))
  }

  // ---------------------------------------------------------------- the customer

  /** `GET /:userId`. The lookup's `!customer` test is never reached with a missing customer:
      attaching the metafields has already thrown, so that case answers 500. */
  function GetUserRoute(userId: string, byId: Result<Option<Customer>, ApiError>, listing: MetafieldsReply,
                        parse: JsonParser): (r: UserResponse)
    ensures !NumericId(Str(userId)) ==> r == Failure(400, InvalidUserId, None)
    ensures NumericId(Str(userId)) && byId.Ok? && byId.value.Some? ==>
      r == CustomerReply(None, FormatCustomerResponse(byId.value.value.(metafields := Some(GetCustomerMetafields(listing))), parse))
    ensures NumericId(Str(userId)) && byId.Err? ==> r == MapError(byId.error, UserNotFound, Generic, FetchFailed)
    ensures NumericId(Str(userId)) && byId == Ok(None) ==> r == Failure(500, FetchFailed, Some(SetMetafieldsError))
  {
    if !NumericId(Str(userId)) then Failure(400, InvalidUserId, None)
    else
      match GetCustomerWithMetafields(byId, listing)
      case Err(e) => MapError(e, UserNotFound, Generic, FetchFailed)
      case Ok(c) => CustomerReply(None, FormatCustomerResponse(c, parse))
  }

  /** The fields an update may change directly. */
  const BasicFields: set<string> := {"firstName", "lastName", "email", "phone"}

  /** `firstName || lastName || email || phone`. */
  predicate HasBasicFields(body: map<string, Value>): (r: bool)
    ensures r <==> exists k :: k in BasicFields && Truthy(Field(body, k))
    ensures body == map[] ==> !r
  {
    Truthy(Field(body, "firstName")) || Truthy(Field(body, "lastName"))
    || Truthy(Field(body, "email")) || Truthy(Field(body, "phone"))
  }

  /** One metafield of the request: a missing one throws, otherwise it needs a truthy `key` and
      a defined `value`. */
  function MetafieldCheck(m: Value): (r: Check)
    ensures r.Throw? <==> m.Undefined? || m.Null?
    ensures r.Pass? <==> !r.Throw? && Truthy(Prop(m, "key").value) && !Prop(m, "value").value.Undefined?
    ensures r.Reject? ==> r.message == MetafieldShape
  {
    match Prop(m, "key")
    case None => Throw(PropError(m, "key"))
    case Some(key) =>
      if !Truthy(key) || Prop(m, "value").value.Undefined? then Reject(MetafieldShape) else Pass
  }

  /** The `updateData` object: each basic field that is not `undefined`, and the metafields when
      the request carries a non-empty array of them. */
  function UpdateData(body: map<string, Value>, hasMetafields: bool): (r: map<string, Value>)
    ensures forall k :: k in r ==> k in BasicFields || k == "metafields"
    ensures forall k :: k in BasicFields ==> (k in r <==> !Field(body, k).Undefined?)
    ensures forall k :: k in r ==> r[k] == Field(body, k)
    ensures "metafields" in r <==> hasMetafields
  {
    var defined := map k | k in BasicFields && !Field(body, k).Undefined? :: body[k];
    if hasMetafields then defined["metafields" := Field(body, "metafields")] else defined
  }

  /** The metafield loop, run when the request carries a non-empty array of metafields: the
      first metafield that does not pass decides. */
  function MetafieldsCheck(metafields: Value): (r: Check)
    ensures !NonEmptyArray(metafields) ==> r == Pass
    ensures NonEmptyArray(metafields) ==>
      (r.Pass? <==> forall i :: 0 <= i < |metafields.elems| ==> MetafieldCheck(metafields.elems[i]).Pass?)
    ensures !r.Pass? ==> NonEmptyArray(metafields)
    ensures !r.Pass? ==>
      exists k :: 0 <= k < |metafields.elems| && r == MetafieldCheck(metafields.elems[k])
                  && forall j :: 0 <= j < k ==> MetafieldCheck(metafields.elems[j]).Pass?
  {
    if !NonEmptyArray(metafields) then Pass
    else
      var ms := metafields.elems;
      var verdicts := seq(|ms|, i requires 0 <= i < |ms| => MetafieldCheck(ms[i]));
      assert forall i :: 0 <= i < |ms| ==> verdicts[i] == MetafieldCheck(ms[i]);
      var r := FirstFailure(verdicts);
      if !r.Pass? then
        var k :| 0 <= k < |verdicts| && r == verdicts[k] && forall j :: 0 <= j < k ==> verdicts[j].Pass?;
        assert r == MetafieldCheck(ms[k]);
        r
      else
        r
  }

  /** The answer to the platform's reply to the update: a missing customer fails while it is
      formatted. */
  function UpdateAnswer(answer: Result<Option<Customer>, ApiError>, parse: JsonParser): (r: UserResponse)
    ensures answer.Ok? && answer.value.Some? <==> r.CustomerReply?
    ensures r.CustomerReply? ==> r == CustomerReply(Some(UserUpdated), FormatCustomerResponse(answer.value.value, parse))
    ensures answer.Err? ==> r == MapError(answer.error, UserNotFound, WithErrors(InvalidData), UpdateFailed)
    ensures answer == Ok(None) ==> r == Failure(500, UpdateFailed, Some(PropError(Undefined, "id")))
  {
    match answer
    case Err(e) => MapError(e, UserNotFound, WithErrors(InvalidData), UpdateFailed)
    case Ok(None) => Failure(500, UpdateFailed, Some(PropError(Undefined, "id")))
    case Ok(Some(c)) => CustomerReply(Some(UserUpdated), FormatCustomerResponse(c, parse))
  }

  /** `PUT /:userId`, with the platform's answer to the update payload. Metafields are checked
      but never sent: the update payload carries the id and the name, email and phone only. */
  function UpdateUserRoute(userId: string, body: map<string, Value>,
                           put: Payload -> Result<Option<Customer>, ApiError>, parse: JsonParser): (r: UserResponse)
    ensures !NumericId(Str(userId)) ==> r == Failure(400, InvalidUserId, None)
    ensures NumericId(Str(userId)) && !HasBasicFields(body) && !NonEmptyArray(Field(body, "metafields")) ==>
      r == Failure(400, NoUpdateFields, None)
    ensures NumericId(Str(userId)) && (HasBasicFields(body) || NonEmptyArray(Field(body, "metafields"))) ==>
      var check := MetafieldsCheck(Field(body, "metafields"));
      && (check.Reject? ==> r == Failure(400, MetafieldShape, None))
      && (check.Throw? ==> r == Failure(500, UpdateFailed, Some(check.error)))
      && (check.Pass? ==>
            r == UpdateAnswer(put(UpdatePayload(Str(userId), UpdateData(body, NonEmptyArray(Field(body, "metafields"))))), parse))
  {
    var metafields := Field(body, "metafields");
    var hasMetafields := NonEmptyArray(metafields);
    if !NumericId(Str(userId)) then Failure(400, InvalidUserId, None)
    else if !HasBasicFields(body) && !hasMetafields then Failure(400, NoUpdateFields, None)
    else
      match MetafieldsCheck(metafields)
      case Reject(m) => Failure(400, m, None)
      case Throw(e) => Failure(500, UpdateFailed, Some(e))
      case Pass => UpdateAnswer(UpdateCustomer(Str(userId), UpdateData(body, hasMetafields), put), parse)
  }

  // ---------------------------------------------------------------- addresses

  const AddressFields: set<string> :=
    {"firstName", "lastName", "company", "address1", "address2", "city", "province", "country", "zip", "phone", "isDefault"}

  /** The `addressData` object: every address field of the request, `undefined` ones included. */
  function AddressData(body: map<string, Value>): (r: map<string, Value>)
    ensures r.Keys == AddressFields
    ensures forall k :: k in r ==> r[k] == Field(body, k)
  {
    map k | k in AddressFields :: Field(body, k)
  }

  /** Some address field of the request is not `undefined`. */
  predicate HasAddressField(body: map<string, Value>) {
    exists k :: k in AddressFields && k in body && !body[k].Undefined?
  }

  /** The checks of the two id parameters, the address id only when there is one. */
  function IdsCheck(userId: string, addressId: Option<string>): (r: Check)
    ensures !NumericId(Str(userId)) ==> r == Reject(InvalidUserId)
    ensures NumericId(Str(userId)) && addressId.Some? && !NumericId(Str(addressId.value)) ==> r == Reject(InvalidAddressId)
    ensures r.Pass? <==> NumericId(Str(userId)) && (addressId.Some? ==> NumericId(Str(addressId.value)))
    ensures !r.Throw?
  {
    if !NumericId(Str(userId)) then Reject(InvalidUserId)
    else if addressId.Some? && !NumericId(Str(addressId.value)) then Reject(InvalidAddressId)
    else Pass
  }

  /** After validation: the call as written throws that its function is not a function; as
      intended the platform's answer decides. */
  function AddressCall(w: Wiring, name: string, answer: Result<Value, ApiError>, status: nat, message: string,
                       notFound: string, on422: On422, failed: string): (r: UserResponse)
    ensures w.AsWritten? ==> r == Failure(500, failed, Some(NotAFunction(name)))
    ensures w.Intended? && answer.Ok? ==> r == AddressReply(status, message, answer.value)
    ensures w.Intended? && answer.Err? ==> r == MapError(answer.error, notFound, on422, failed)
  {
    match w
    case AsWritten => Failure(500, failed, Some(NotAFunction(name)))
    case Intended =>
      match answer
      case Ok(a) => AddressReply(status, message, a)
      case Err(e) => MapError(e, notFound, on422, failed)
  }

  /** `POST /:userId/address`; `add` is the platform's (formatted) answer to adding the address. */
  function AddAddressRoute(w: Wiring, userId: string, body: map<string, Value>,
                           add: map<string, Value> -> Result<Value, ApiError>): (r: UserResponse)
    ensures !NumericId(Str(userId)) ==> r == Failure(400, InvalidUserId, None)
    ensures NumericId(Str(userId)) ==>
      (r == Failure(400, AddressFieldsRequired, None) <==>
         !Truthy(Field(body, "address1")) || !Truthy(Field(body, "city")) || !Truthy(Field(body, "country")))
    ensures StatusOf(r) == 201 ==>
      w.Intended? && add(AddressData(body)).Ok? && r == AddressReply(201, AddressAdded, add(AddressData(body)).value)
  {
    if !NumericId(Str(userId)) then Failure(400, InvalidUserId, None)
    else if !Truthy(Field(body, "address1")) || !Truthy(Field(body, "city")) || !Truthy(Field(body, "country")) then
      Failure(400, AddressFieldsRequired, None)
    else
      AddressCall(w, "addCustomerAddress", add(AddressData(body)), 201, AddressAdded,
                  UserNotFound, WithErrors(InvalidAddressData), AddAddressFailed)
  }

  /** `PUT /:userId/address/:addressId`. */
  function UpdateAddressRoute(w: Wiring, userId: string, addressId: string, body: map<string, Value>,
                              update: map<string, Value> -> Result<Value, ApiError>): (r: UserResponse)
    ensures !IdsCheck(userId, Some(addressId)).Pass? ==> r == Failure(400, IdsCheck(userId, Some(addressId)).message, None)
    ensures IdsCheck(userId, Some(addressId)).Pass? ==>
      (r == Failure(400, NoAddressFields, None) <==> !HasAddressField(body))
    ensures StatusOf(r) == 200 ==> w.Intended? && update(AddressData(body)).Ok?
  {
    var ids := IdsCheck(userId, Some(addressId));
    if !ids.Pass? then Failure(400, ids.message, None)
    else if !HasAddressField(body) then Failure(400, NoAddressFields, None)
    else
      AddressCall(w, "updateCustomerAddress", update(AddressData(body)), 200, AddressUpdated,
                  UserOrAddressNotFound, WithErrors(InvalidAddressData), UpdateAddressFailed)
  }

  /** `DELETE /:userId/address/:addressId`; `deleted` is `None` when the platform deleted it. */
  function DeleteAddressRoute(w: Wiring, userId: string, addressId: string, deleted: Option<ApiError>): (r: UserResponse)
    ensures !IdsCheck(userId, Some(addressId)).Pass? ==> r == Failure(400, IdsCheck(userId, Some(addressId)).message, None)
    ensures IdsCheck(userId, Some(addressId)).Pass? && w.AsWritten? ==>
      r == Failure(500, DeleteAddressFailed, Some(NotAFunction("deleteCustomerAddress")))
    ensures IdsCheck(userId, Some(addressId)).Pass? && w.Intended? && deleted.Some? && deleted.value.status == Some(422) ==>
      r == Failure(422, DefaultAddressKept, None)
    ensures StatusOf(r) == 200 <==> IdsCheck(userId, Some(addressId)).Pass? && w.Intended? && deleted.None?
  {
    var ids := IdsCheck(userId, Some(addressId));
    if !ids.Pass? then Failure(400, ids.message, None)
    else if w.AsWritten? then Failure(500, DeleteAddressFailed, Some(NotAFunction("deleteCustomerAddress")))
    else
      match deleted
      case None => AddressDeleted(AddressRemoved)
      case Some(e) => MapError(e, UserOrAddressNotFound, MessageOnly(DefaultAddressKept), DeleteAddressFailed)
  }

  /** `PUT /:userId/address/:addressId/default`: a platform 422 is not answered specially. */
  function SetDefaultAddressRoute(w: Wiring, userId: string, addressId: string,
                                  answer: Result<Value, ApiError>): (r: UserResponse)
    ensures !IdsCheck(userId, Some(addressId)).Pass? ==> r == Failure(400, IdsCheck(userId, Some(addressId)).message, None)
    ensures StatusOf(r) != 422
    ensures IdsCheck(userId, Some(addressId)).Pass? ==>
      r == AddressCall(w, "setDefaultAddress", answer, 200, DefaultAddressSet, UserOrAddressNotFound, Generic, SetDefaultFailed)
  {
    var ids := IdsCheck(userId, Some(addressId));
    if !ids.Pass? then Failure(400, ids.message, None)
    else AddressCall(w, "setDefaultAddress", answer, 200, DefaultAddressSet, UserOrAddressNotFound, Generic, SetDefaultFailed)
  }

  // ---------------------------------------------------------------- properties

  /** As written, no address route ever succeeds or maps a platform status: every request
      that passes validation answers 500. */
  lemma AddressRoutesFailAsWritten(userId: string, addressId: string, body: map<string, Value>,
                                   add: map<string, Value> -> Result<Value, ApiError>,
                                   update: map<string, Value> -> Result<Value, ApiError>,
                                   deleted: Option<ApiError>, answer: Result<Value, ApiError>)
    ensures StatusOf(AddAddressRoute(AsWritten, userId, body, add)) in {400, 500}
    ensures StatusOf(UpdateAddressRoute(AsWritten, userId, addressId, body, update)) in {400, 500}
    ensures StatusOf(DeleteAddressRoute(AsWritten, userId, addressId, deleted)) in {400, 500}
    ensures StatusOf(SetDefaultAddressRoute(AsWritten, userId, addressId, answer)) in {400, 500}
  {
  }

  /** As intended, a validated address request succeeds exactly when the platform call does. */
  lemma AddressRoutesIntended(userId: string, addressId: string, body: map<string, Value>,
                              add: map<string, Value> -> Result<Value, ApiError>,
                              update: map<string, Value> -> Result<Value, ApiError>,
                              deleted: Option<ApiError>, answer: Result<Value, ApiError>)
    requires NumericId(Str(userId)) && NumericId(Str(addressId))
    ensures Truthy(Field(body, "address1")) && Truthy(Field(body, "city")) && Truthy(Field(body, "country")) ==>
      (StatusOf(AddAddressRoute(Intended, userId, body, add)) == 201 <==> add(AddressData(body)).Ok?)
    ensures HasAddressField(body) ==>
      (StatusOf(UpdateAddressRoute(Intended, userId, addressId, body, update)) == 200 <==> update(AddressData(body)).Ok?)
    ensures StatusOf(DeleteAddressRoute(Intended, userId, addressId, deleted)) == 200 <==> deleted.None?
    ensures StatusOf(SetDefaultAddressRoute(Intended, userId, addressId, answer)) == 200 <==> answer.Ok?
  {
  }

  /** `GET /:userId` answers 404 only for a platform 404. */
  lemma UserNotFoundOnlyUpstream(userId: string, byId: Result<Option<Customer>, ApiError>, listing: MetafieldsReply,
                                 parse: JsonParser)
    ensures StatusOf(GetUserRoute(userId, byId, listing, parse)) == 404 <==>
      NumericId(Str(userId)) && byId.Err? && byId.error.status == Some(404)
  {
  }

  /** The update payload carries the id and exactly the basic fields the request defines, with
      their values; whether metafields came along makes no difference. */
  lemma UpdateSendsDefinedFields(userId: string, body: map<string, Value>, hasMetafields: bool)
    ensures var p := UpdatePayload(Str(userId), UpdateData(body, hasMetafields));
      && p == UpdatePayload(Str(userId), UpdateData(body, false))
      && p[Id] == Str(userId)
      && (FirstName in p <==> !Field(body, "firstName").Undefined?)
      && (FirstName in p ==> p[FirstName] == body["firstName"])
      && (LastName in p <==> !Field(body, "lastName").Undefined?)
      && (Email in p <==> !Field(body, "email").Undefined?)
      && (Phone in p <==> !Field(body, "phone").Undefined?)
  {
    var a := UpdateData(body, hasMetafields);
    var b := UpdateData(body, false);
    assert forall k :: k in BasicFields ==> Field(a, k) == Field(b, k);
    assert "firstName" in BasicFields && "lastName" in BasicFields && "email" in BasicFields && "phone" in BasicFields;
    assert Field(a, "firstName") == Field(b, "firstName") && Field(a, "lastName") == Field(b, "lastName");
    assert Field(a, "email") == Field(b, "email") && Field(a, "phone") == Field(b, "phone");
  }
}
