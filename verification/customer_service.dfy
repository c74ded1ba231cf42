/** The customer service: metafield grouping, the customer response shape, the outgoing create and
    update payloads, first-match lookup and find-or-create. The platform's search, create and
    metafield endpoints are parameters: their answers (or the error they fail with) are inputs. */
module CustomerService {
  import opened Wrappers
  import opened JsText
  import opened JsValue

  /** A customer metafield as the platform lists it. The value is always the stored text. */
  datatype Metafield = Metafield(id: nat, namespace: Option<string>, key: string, value: string, mtype: string)

  /** One entry of the formatted metafields: the (possibly parsed) value, the type and the id. */
  datatype MetafieldView = MetafieldView(value: Value, mtype: string, id: nat)

  /** Formatted metafields: namespace, then key. */
  type Grouped = map<string, map<string, MetafieldView>>

  /** `JSON.parse`: `None` is the SyntaxError it throws. */
  type JsonParser = string -> Option<Value>

  const DefaultNamespace := "custom"

  // ---------------------------------------------------------------- formatMetafields

  /** `metafield.namespace || "custom"`. */
  function NamespaceOf(m: Metafield): (ns: string)
    ensures ns != ""
    ensures m.namespace.Some? && m.namespace.value != "" ==> ns == m.namespace.value
    ensures m.namespace.None? || m.namespace == Some("") ==> ns == DefaultNamespace
  {
    match m.namespace
    case Some(ns) => if ns == "" then DefaultNamespace else ns
    case None => DefaultNamespace
  }

  predicate IsJsonType(mtype: string) {
    mtype == "json" || mtype == "json_string"
  }

  /** The stored entry for one metafield: the value is parsed only for the two JSON types, and a
      value that does not parse is kept as the raw text. */
  function ViewOf(m: Metafield, parse: JsonParser): (v: MetafieldView)
    ensures v.id == m.id && v.mtype == m.mtype
    ensures !IsJsonType(m.mtype) ==> v.value == Str(m.value)
    ensures IsJsonType(m.mtype) && parse(m.value).None? ==> v.value == Str(m.value)
    ensures IsJsonType(m.mtype) && parse(m.value).Some? ==> v.value == parse(m.value).value
  {
    var value :=
      if IsJsonType(m.mtype) then
        match parse(m.value)
        case Some(parsed) => parsed
        case None => Str(m.value)
      else
        Str(m.value);
    MetafieldView(value, m.mtype, m.id)
  }

  /** One iteration of the `forEach`: create the namespace group if needed, then (over)write the key. */
  function Insert(g: Grouped, m: Metafield, parse: JsonParser): Grouped {
    var ns := NamespaceOf(m);
    var inner := if ns in g then g[ns] else map[];
    g[ns := inner[m.key := ViewOf(m, parse)]]
  }

  /** The `forEach` over the list, in order. */
  function Group(mfs: seq<Metafield>, parse: JsonParser): Grouped
    decreases |mfs|
  {
    if |mfs| == 0 then map[] else Insert(Group(mfs[..|mfs| - 1], parse), mfs[|mfs| - 1], parse)
  }

  /** `formatMetafields`: an absent list gives `{}`, as does an empty one. */
  function FormatMetafields(mfs: Option<seq<Metafield>>, parse: JsonParser): (r: Grouped)
    ensures mfs.None? ==> r == map[]
    ensures mfs == Some([]) ==> r == map[]
  {
    match mfs
    case None => map[]
    case Some(list) => if |list| == 0 then map[] else Group(list, parse)
  }

  predicate Names(m: Metafield, ns: string, key: string) {
    NamespaceOf(m) == ns && m.key == key
  }

  /** Reference definition: the index of the last metafield naming (ns, key). */
  function LastMatch(mfs: seq<Metafield>, ns: string, key: string): (r: Option<nat>)
    ensures r.Some? ==> r.value < |mfs| && Names(mfs[r.value], ns, key)
    ensures r.Some? ==> forall j :: r.value < j < |mfs| ==> !Names(mfs[j], ns, key)
    ensures r.None? ==> forall j :: 0 <= j < |mfs| ==> !Names(mfs[j], ns, key)
    decreases |mfs|
  {
    if |mfs| == 0 then None
    else if Names(mfs[|mfs| - 1], ns, key) then Some(|mfs| - 1)
    else LastMatch(mfs[..|mfs| - 1], ns, key)
  }

  /** The grouped entry for (ns, key) exists exactly when some metafield names it, and it is the
      view of the last such metafield: later entries overwrite earlier ones. */
  lemma {:induction false} GroupLastWins(mfs: seq<Metafield>, parse: JsonParser, ns: string, key: string)
    ensures (ns in Group(mfs, parse) && key in Group(mfs, parse)[ns]) <==> LastMatch(mfs, ns, key).Some?
    ensures LastMatch(mfs, ns, key).Some? ==>
      Group(mfs, parse)[ns][key] == ViewOf(mfs[LastMatch(mfs, ns, key).value], parse)
    decreases |mfs|
  {
    if |mfs| > 0 {
      GroupLastWins(mfs[..|mfs| - 1], parse, ns, key);
    }
  }

  /** A namespace group exists exactly when some metafield falls in that namespace. */
  lemma {:induction false} GroupNamespaces(mfs: seq<Metafield>, parse: JsonParser, ns: string)
    ensures ns in Group(mfs, parse) <==> exists i :: 0 <= i < |mfs| && NamespaceOf(mfs[i]) == ns
    decreases |mfs|
  {
    if |mfs| > 0 {
      var init := mfs[..|mfs| - 1];
      GroupNamespaces(init, parse, ns);
      if exists i :: 0 <= i < |init| && NamespaceOf(init[i]) == ns {
        var i :| 0 <= i < |init| && NamespaceOf(init[i]) == ns;
        assert mfs[i] == init[i];
      }
      if exists i :: 0 <= i < |mfs| && NamespaceOf(mfs[i]) == ns {
        var i :| 0 <= i < |mfs| && NamespaceOf(mfs[i]) == ns;
        if i < |init| {
          assert init[i] == mfs[i];
        }
      }
    }
  }

  // ---------------------------------------------------------------- formatCustomerResponse

  /** A customer record as the platform's REST API returns it. `defaultAddress` is the raw address
      object or `Null`; `metafields` is attached by the lookups below. */
  datatype Customer = Customer(
    id: nat,
    email: Option<string>,
    phone: Option<string>,
    firstName: Option<string>,
    lastName: Option<string>,
    createdAt: Option<string>,
    updatedAt: Option<string>,
    ordersCount: Option<nat>,
    totalSpent: Option<string>,
    verifiedEmail: Option<bool>,
    acceptsMarketing: Option<bool>,
    defaultAddress: Value,
    metafields: Option<seq<Metafield>>)

  /** The customer as the API answers it. */
  datatype CustomerView = CustomerView(
    id: nat,
    email: Option<string>,
    phone: Option<string>,
    firstName: string,
    lastName: string,
    fullName: string,
    createdAt: Option<string>,
    updatedAt: Option<string>,
    ordersCount: nat,
    totalSpent: string,
    verifiedEmail: bool,
    acceptsMarketing: bool,
    defaultAddress: Value,
    metafields: Grouped)

  /** `s || fallback` for an optional string. */
  function TextOr(s: Option<string>, fallback: string): (r: string)
    ensures s.Some? && s.value != "" ==> r == s.value
    ensures s.None? || s == Some("") ==> r == fallback
  {
    match s
    case Some(t) => if t == "" then fallback else t
    case None => fallback
  }

  /** `formatCustomerResponse`. */
  function FormatCustomerResponse(c: Customer, parse: JsonParser): (v: CustomerView)
    ensures v.id == c.id && v.email == c.email && v.phone == c.phone
    ensures v.createdAt == c.createdAt && v.updatedAt == c.updatedAt
    ensures v.firstName == c.firstName.GetOr("") && v.lastName == c.lastName.GetOr("")
    ensures v.fullName == Trim(v.firstName + " " + v.lastName)
    ensures v.ordersCount == c.ordersCount.GetOr(0)
    ensures c.totalSpent.None? || c.totalSpent == Some("") ==> v.totalSpent == "0.00"
    ensures c.totalSpent.Some? && c.totalSpent.value != "" ==> v.totalSpent == c.totalSpent.value
    ensures v.verifiedEmail == c.verifiedEmail.GetOr(false)
    ensures v.acceptsMarketing == c.acceptsMarketing.GetOr(false)
    ensures Truthy(c.defaultAddress) ==> v.defaultAddress == c.defaultAddress
    ensures !Truthy(c.defaultAddress) ==> v.defaultAddress == Null
    ensures v.metafields == FormatMetafields(c.metafields, parse)
  {
    var first := TextOr(c.firstName, "");
    var last := TextOr(c.lastName, "");
    CustomerView(
      c.id, c.email, c.phone, first, last, Trim(first + " " + last),
      c.createdAt, c.updatedAt,
      c.ordersCount.GetOr(0), TextOr(c.totalSpent, "0.00"),
      c.verifiedEmail.GetOr(false), c.acceptsMarketing.GetOr(false),
      Or(c.defaultAddress, Null),
      FormatMetafields(c.metafields, parse))
  }

  /** Without either name the full name is empty. */
  lemma FullNameOfNoNames(c: Customer, parse: JsonParser)
    requires c.firstName.None? || c.firstName == Some("")
    requires c.lastName.None? || c.lastName == Some("")
    ensures FormatCustomerResponse(c, parse).fullName == ""
  {
    TrimEmptyIff(" ");
  }

  /** Two names without surrounding blanks give "first last" exactly. */
  lemma FullNameOfTwoNames(c: Customer, parse: JsonParser, first: string, last: string)
    requires c.firstName == Some(first) && c.lastName == Some(last)
    requires |first| > 0 && |last| > 0 && !IsSpace(first[0]) && !IsSpace(last[|last| - 1])
    ensures FormatCustomerResponse(c, parse).fullName == first + " " + last
  {
    var s := first + " " + last;
    assert s[0] == first[0] && s[|s| - 1] == last[|last| - 1];
    TrimOfTrimmed(s);
  }

  // ---------------------------------------------------------------- outgoing payloads

  /** The keys of a `customer` object posted to the Admin API; `WireName` is the JSON key. */
  datatype AdminField = Id | Email | Phone | FirstName | LastName | VerifiedEmail | SendEmailWelcome

  function WireName(f: AdminField): string {
    match f
    case Id => "id"
    case Email => "email"
    case Phone => "phone"
    case FirstName => "first_name"
    case LastName => "last_name"
    case VerifiedEmail => "verified_email"
    case SendEmailWelcome => "send_email_welcome"
  }

  /** A `customer` object as posted. */
  type Payload = map<AdminField, Value>

  /** The "remove undefined fields" loop: exactly the defined entries survive, unchanged. */
  function DropUndefined(m: Payload): (r: Payload)
    ensures forall k :: k in r <==> k in m && !m[k].Undefined?
    ensures forall k :: k in r ==> r[k] == m[k]
  {
    map k | k in m && !m[k].Undefined? :: m[k]
  }

  /** The fields `createCustomer` reads from its argument. */
  datatype CustomerInput = CustomerInput(email: Value, phone: Value, firstName: Value, lastName: Value)

  /** The `customer` object `createCustomer` posts: email and phone only when given, names
      defaulting to "", the email counted as verified exactly when one is given, and no welcome
      email. */
  function CreatePayload(data: CustomerInput): (r: Payload)
    ensures Email in r <==> Truthy(data.email)
    ensures Email in r ==> r[Email] == data.email
    ensures Phone in r <==> Truthy(data.phone)
    ensures Phone in r ==> r[Phone] == data.phone
    ensures FirstName in r && r[FirstName] == Or(data.firstName, Str(""))
    ensures LastName in r && r[LastName] == Or(data.lastName, Str(""))
    ensures VerifiedEmail in r && r[VerifiedEmail] == Bool(Truthy(data.email))
    ensures SendEmailWelcome in r && r[SendEmailWelcome] == Bool(false)
    ensures Id !in r
    ensures forall k :: k in r ==> !r[k].Undefined?
  {
    DropUndefined(map[
      Email := Or(data.email, Undefined),
      Phone := Or(data.phone, Undefined),
      FirstName := Or(data.firstName, Str("")),
      LastName := Or(data.lastName, Str("")),
      VerifiedEmail := Bool(Truthy(data.email)),
      SendEmailWelcome := Bool(false)])
  }

  /** The fields `updateCustomer` may send. */
  const UpdatableFields: set<AdminField> := {Id, FirstName, LastName, Email, Phone}

  /** The `customer` object `updateCustomer` puts: the id and the defined name, email and phone
      fields of the update. Anything else in the update, metafields included, is not sent. */
  function UpdatePayload(customerId: Value, update: map<string, Value>): (r: Payload)
    ensures forall k :: k in r ==> k in UpdatableFields && !r[k].Undefined?
    ensures FirstName in r <==> !Field(update, "firstName").Undefined?
    ensures FirstName in r ==> r[FirstName] == update["firstName"]
    ensures LastName in r <==> !Field(update, "lastName").Undefined?
    ensures LastName in r ==> r[LastName] == update["lastName"]
    ensures Email in r <==> !Field(update, "email").Undefined?
    ensures Email in r ==> r[Email] == update["email"]
    ensures Phone in r <==> !Field(update, "phone").Undefined?
    ensures Phone in r ==> r[Phone] == update["phone"]
    ensures Id in r <==> !customerId.Undefined?
    ensures Id in r ==> r[Id] == customerId
  {
    DropUndefined(map[
      Id := customerId,
      FirstName := Field(update, "firstName"),
      LastName := Field(update, "lastName"),
      Email := Field(update, "email"),
      Phone := Field(update, "phone")])
  }

  // ---------------------------------------------------------------- lookups

  /** The platform's answer to a metafield listing: the error it failed with, or the `metafields`
      field of the body (`None` when the body has none). */
  type MetafieldsReply = Result<Option<seq<Metafield>>, string>

  /** `getCustomerMetafields`: the listed metafields, and `[]` when the body has none or the call
      fails. */
  function GetCustomerMetafields(reply: MetafieldsReply): (r: seq<Metafield>)
    ensures reply.Ok? && reply.value.Some? ==> r == reply.value.value
    ensures reply.Err? || reply.value.None? ==> r == []
  {
    match reply
    case Ok(Some(mfs)) => mfs
    case Ok(None) => []
    case Err(_) => []
  }

  /** `findCustomerByEmail` / `findCustomerByPhone`, given the search answer and the metafield
      listing for each customer id: the first hit, with its metafields attached when asked for and
      its id is non-zero; no hit gives `None`; a failed search is rethrown. */
  function FindCustomer(search: Result<seq<Customer>, string>, includeMetafields: bool,
                        metafieldsOf: nat -> MetafieldsReply): (r: Result<Option<Customer>, string>)
    ensures search.Err? <==> r.Err?
    ensures search.Err? ==> r.error == search.error
    ensures search.Ok? && |search.value| == 0 ==> r == Ok(None)
    ensures search.Ok? && |search.value| > 0 ==>
      r.Ok? && r.value.Some? && r.value.value.id == search.value[0].id
      && r.value.value.(metafields := search.value[0].metafields) == search.value[0]
    ensures search.Ok? && |search.value| > 0 && includeMetafields && search.value[0].id != 0 ==>
      r.value.value.metafields == Some(GetCustomerMetafields(metafieldsOf(search.value[0].id)))
  {
    match search
    case Err(e) => Err(e)
    case Ok(hits) =>
      if |hits| == 0 then Ok(None)
      else
        var c := hits[0];
        if includeMetafields && c.id != 0 then
          Ok(Some(c.(metafields := Some(GetCustomerMetafields(metafieldsOf(c.id))))))
        else
          Ok(Some(c))
  }

  /** An error a platform call throws: its message and, when the platform answered, the HTTP
      status and the `errors` of the answer's body (`Undefined` when it has none). */
  datatype ApiError = ApiError(message: string, status: Option<int>, errors: Value)

  /** The TypeError of attaching metafields to a missing customer. */
  const SetMetafieldsError := "Cannot set properties of undefined (setting 'metafields')"

  /** `getCustomerWithMetafields(customerId)`, given the answer of the customer lookup (`None`
      when the body carries no customer) and of the metafield listing. The listing never fails
      the call; a failed lookup does, and so does a missing customer. */
  function GetCustomerWithMetafields(byId: Result<Option<Customer>, ApiError>, listing: MetafieldsReply)
    : (r: Result<Customer, ApiError>)
    ensures r.Ok? <==> byId.Ok? && byId.value.Some?
    ensures byId.Err? ==> r == Err(byId.error)
    ensures byId == Ok(None) ==> r == Err(ApiError(SetMetafieldsError, None, Undefined))
    ensures r.Ok? ==> r.value.(metafields := byId.value.value.metafields) == byId.value.value
    ensures r.Ok? ==> r.value.metafields == Some(GetCustomerMetafields(listing))
  {
    match byId
    case Err(e) => Err(e)
    case Ok(None) => Err(ApiError(SetMetafieldsError, None, Undefined))
    case Ok(Some(c)) => Ok(c.(metafields := Some(GetCustomerMetafields(listing))))
  }

  /** `updateCustomer(customerId, updateData)`: the platform's answer to putting the payload
      (`None` when the body carries no customer). */
  function UpdateCustomer(customerId: Value, update: map<string, Value>,
                          put: Payload -> Result<Option<Customer>, ApiError>): Result<Option<Customer>, ApiError>
  {
    put(UpdatePayload(customerId, update))
  }

  /** Only the id and the four named fields reach the platform: two updates that agree on
      `firstName`, `lastName`, `email` and `phone` get the same answer, whatever else (the
      metafields, say) they carry. */
  lemma UpdateSendsOnlyNamedFields(customerId: Value, a: map<string, Value>, b: map<string, Value>,
                                   put: Payload -> Result<Option<Customer>, ApiError>)
    requires Field(a, "firstName") == Field(b, "firstName") && Field(a, "lastName") == Field(b, "lastName")
    requires Field(a, "email") == Field(b, "email") && Field(a, "phone") == Field(b, "phone")
    ensures UpdateCustomer(customerId, a, put) == UpdateCustomer(customerId, b, put)
  {
    var pa := UpdatePayload(customerId, a);
    var pb := UpdatePayload(customerId, b);
    assert pa.Keys == pb.Keys;
    assert forall k :: k in pa ==> pa[k] == pb[k];
  }

  /** The result of `findOrCreateCustomerBy*`. */
  datatype FoundOrCreated = FoundOrCreated(customer: Customer, isNewCustomer: bool)

  /** A JavaScript default parameter `= ""`: only `undefined` is replaced. */
  function DefaultEmpty(v: Value): (r: Value)
    ensures v.Undefined? ==> r == Str("")
    ensures !v.Undefined? ==> r == v
  {
    if v.Undefined? then Str("") else v
  }

  /** Shared body of both find-or-create functions: `found` is the lookup's outcome, `create` the
      platform's answer to a create request with the given payload. */
  function FindOrCreate(found: Result<Option<Customer>, string>, input: CustomerInput,
                        create: Payload -> Result<Customer, string>): (r: Result<FoundOrCreated, string>)
    ensures found.Err? ==> r == Err(found.error)
    ensures found.Ok? && found.value.Some? ==> r == Ok(FoundOrCreated(found.value.value, false))
    ensures found.Ok? && found.value.None? && create(CreatePayload(input)).Ok? ==>
      r == Ok(FoundOrCreated(create(CreatePayload(input)).value, true))
    ensures found.Ok? && found.value.None? && create(CreatePayload(input)).Err? ==>
      r == Err(create(CreatePayload(input)).error)
    ensures r.Ok? ==> (r.value.isNewCustomer <==> found == Ok(None))
  {
    match found
    case Err(e) => Err(e)
    case Ok(Some(c)) => Ok(FoundOrCreated(c, false))
    case Ok(None) =>
      match create(CreatePayload(input))
      case Ok(c) => Ok(FoundOrCreated(c, true))
      case Err(e) => Err(e)
  }

  /** `findOrCreateCustomerByEmail(email, firstName, lastName)`. */
  function FindOrCreateByEmail(email: Value, firstName: Value, lastName: Value,
                               search: Result<seq<Customer>, string>,
                               metafieldsOf: nat -> MetafieldsReply,
                               create: Payload -> Result<Customer, string>): (r: Result<FoundOrCreated, string>)
    ensures r.Ok? && !r.value.isNewCustomer ==>
      search.Ok? && |search.value| > 0 && r.value.customer.id == search.value[0].id
    ensures r.Ok? && r.value.isNewCustomer ==>
      search == Ok([]) &&
      create(CreatePayload(CustomerInput(email, Undefined, DefaultEmpty(firstName), DefaultEmpty(lastName)))) ==
        Ok(r.value.customer)
  {
    FindOrCreate(FindCustomer(search, true, metafieldsOf),
                 CustomerInput(email, Undefined, DefaultEmpty(firstName), DefaultEmpty(lastName)), create)
  }

  /** `findOrCreateCustomerByPhone(phone, firstName, lastName)`. */
  function FindOrCreateByPhone(phone: Value, firstName: Value, lastName: Value,
                               search: Result<seq<Customer>, string>,
                               metafieldsOf: nat -> MetafieldsReply,
                               create: Payload -> Result<Customer, string>): (r: Result<FoundOrCreated, string>)
    ensures r.Ok? && !r.value.isNewCustomer ==>
      search.Ok? && |search.value| > 0 && r.value.customer.id == search.value[0].id
    ensures r.Ok? && r.value.isNewCustomer ==>
      search == Ok([]) &&
      create(CreatePayload(CustomerInput(Undefined, phone, DefaultEmpty(firstName), DefaultEmpty(lastName)))) ==
        Ok(r.value.customer)
  {
    FindOrCreate(FindCustomer(search, true, metafieldsOf),
                 CustomerInput(Undefined, phone, DefaultEmpty(firstName), DefaultEmpty(lastName)), create)
  }
}
