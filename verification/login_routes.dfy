/** The login decisions: credential and password-length checks, the Storefront email login that
    registers an unknown customer and logs them in, the phone login that goes through a
    synthetic email address, the names taken from an identity provider, which customer lookup a
    provider login runs, and the admin "session" derived from the customer found. Every answer of
    the identity provider and of the commerce platform is an input. */
module LoginRoutes {
  import opened Wrappers
  import opened JsText
  import opened JsNumber
  import opened JsValue
  import opened Validation
  import opened CustomerService

  // ---------------------------------------------------------------- validation

  /** The shortest password the platform accepts. */
  const MinPasswordLength: nat := 5

  const EmailPasswordRequired := "Email and password are required"
  const PhonePasswordRequired := "Phone number and password are required"
  const PasswordLengthMessage := "Password must be at least 5 characters long"

  /** `password.length < 5`. Only strings and arrays have a length; for any other value the
      comparison is with `undefined` and is false. */
  predicate PasswordTooShort(password: Value) {
    match Prop(password, "length")
    case None => false
    case Some(len) => LessThan(len, MinPasswordLength as real)
  }

  /** The two checks of both password logins: identifier and password present, then long
      enough. */
  function CredentialsCheck(id: Value, password: Value, missing: string): (r: Check)
    ensures !r.Throw?
    ensures r.Pass? <==> Truthy(id) && Truthy(password) && !PasswordTooShort(password)
    ensures !Truthy(id) || !Truthy(password) ==> r == Reject(missing)
    ensures Truthy(id) && Truthy(password) && PasswordTooShort(password) ==> r == Reject(PasswordLengthMessage)
  {
    if !Truthy(id) || !Truthy(password) then Reject(missing)
    else if PasswordTooShort(password) then Reject(PasswordLengthMessage)
    else Pass
  }

  /** A string password is too short exactly when it has fewer than five characters. */
  lemma StringPasswordLength(s: string)
    ensures PasswordTooShort(Str(s)) <==> |s| < MinPasswordLength
  {
  }

  /** A numeric password is never measured: `(12).length` is `undefined`. */
  lemma NumericPasswordNotMeasured(n: Number)
    ensures !PasswordTooShort(Num(n))
  {
  }

  // ---------------------------------------------------------------- platform answers

  datatype AccessToken = AccessToken(accessToken: string, expiresAt: string)

  datatype UserError = UserError(code: string, message: string)

  /** The answer to the access-token mutation: top-level GraphQL errors (the first one's
      message), or the token (when one was created) and the customer user errors. */
  datatype LoginReply =
    | LoginErrors(message: string)
    | LoginAnswer(token: Option<AccessToken>, userErrors: seq<UserError>)

  /** The answer to the customer-create mutation: GraphQL errors, or whether a customer came
      back and the user errors. */
  datatype RegisterReply =
    | RegisterErrors(message: string)
    | RegisterAnswer(created: bool, userErrors: seq<UserError>)

  const UnidentifiedCustomer := "UNIDENTIFIED_CUSTOMER"

  /** Some user error reports that no customer has these credentials. */
  predicate Unidentified(errors: seq<UserError>) {
    exists i :: 0 <= i < |errors| && errors[i].code == UnidentifiedCustomer
  }

  datatype LoginResponse =
    | Failure(status: nat, message: string, error: Option<string>)
    | Refused(message: string, userErrors: seq<UserError>)
    | RegistrationRefused(errors: Value)
    | LoggedIn(status: nat, message: string, isNewUser: bool, token: AccessToken)

  function StatusOf(r: LoginResponse): nat {
    match r
    case Failure(status, _, _) => status
    case Refused(_, _) => 400
    case RegistrationRefused(_) => 400
    case LoggedIn(status, _, _, _) => status
  }

  const LoginFailed := "Failed to login"
  const RegisterFailed := "Failed to register"
  const RegistrationFailed := "Registration failed"
  const CreateAccountFailed := "Failed to create customer account"
  const RegisteredNotLoggedIn := "Registration successful but login failed"
  const RegisteredNoToken := "Registration successful but failed to get access token"
  const AccountCreated := "Account created and logged in successfully"
  const LoginRejected := "Login failed"
  const BadCredentials := "Invalid email or password"
  const LoginSucceeded := "Login successful"

  /** The login right after a registration: 201 with the new token, or why it failed. */
  function AfterRegistration(relogin: Result<LoginReply, string>): (r: LoginResponse)
    ensures r.LoggedIn? <==> relogin.Ok? && relogin.value.LoginAnswer? && relogin.value.token.Some?
    ensures r.LoggedIn? ==> r == LoggedIn(201, AccountCreated, true, relogin.value.token.value)
    ensures relogin.Err? ==> r == Failure(500, LoginFailed, Some(relogin.error))
    ensures StatusOf(r) in {201, 400, 500}
  {
    match relogin
    case Err(e) => Failure(500, LoginFailed, Some(e))
    case Ok(LoginErrors(m)) => Failure(400, RegisteredNotLoggedIn, Some(m))
    case Ok(LoginAnswer(None, _)) => Failure(400, RegisteredNoToken, None)
    case Ok(LoginAnswer(Some(t), _)) => LoggedIn(201, AccountCreated, true, t)
  }

  // ---------------------------------------------------------------- POST /shopify/email

  /** The customer `customerCreate` registers for an unknown email: the same credentials, "-"
      for both names, no marketing. */
  datatype Signup = Signup(email: Value, password: Value, firstName: string, lastName: string,
                           acceptsMarketing: bool)

  /** The registration branch: the customer is created with the request's credentials, then
      logged in again. */
  function RegisterThenLogin(email: Value, password: Value, register: Signup -> Result<RegisterReply, string>,
                             relogin: Result<LoginReply, string>): (r: LoginResponse)
    ensures r.LoggedIn? ==>
      var reply := register(Signup(email, password, "-", "-", false));
      reply.Ok? && reply.value == RegisterAnswer(true, []) && r == AfterRegistration(relogin)
    ensures var reply := register(Signup(email, password, "-", "-", false));
      && (reply == Ok(RegisterAnswer(true, [])) ==> r == AfterRegistration(relogin))
      && (reply.Err? ==> r == Failure(500, LoginFailed, Some(reply.error)))
      && (reply.Ok? && reply.value.RegisterErrors? ==> r == Failure(400, RegisterFailed, Some(reply.value.message)))
      && (reply.Ok? && reply.value.RegisterAnswer? && |reply.value.userErrors| > 0 ==>
            r == Refused(RegistrationFailed, reply.value.userErrors))
      && (reply == Ok(RegisterAnswer(false, [])) ==> r == Failure(400, CreateAccountFailed, None))
  {
    match register(Signup(email, password, "-", "-", false))
    case Err(e) => Failure(500, LoginFailed, Some(e))
    case Ok(RegisterErrors(m)) => Failure(400, RegisterFailed, Some(m))
    case Ok(RegisterAnswer(created, errors)) =>
      if |errors| > 0 then Refused(RegistrationFailed, errors)
      else if !created then Failure(400, CreateAccountFailed, None)
      else AfterRegistration(relogin)
  }

  /** `POST /shopify/email`, with the answer to the first login, the platform's answer to a
      registration, and the answer to the login after it. */
  function EmailLoginRoute(body: map<string, Value>, login: Result<LoginReply, string>,
                           register: Signup -> Result<RegisterReply, string>,
                           relogin: Result<LoginReply, string>): (r: LoginResponse)
    ensures var check := CredentialsCheck(Field(body, "email"), Field(body, "password"), EmailPasswordRequired);
      !check.Pass? ==> r == Failure(400, check.message, None)
    ensures var check := CredentialsCheck(Field(body, "email"), Field(body, "password"), EmailPasswordRequired);
      check.Pass? ==>
        && (login.Err? ==> r == Failure(500, LoginFailed, Some(login.error)))
        && (login.Ok? && login.value.LoginErrors? ==> r == Failure(400, LoginFailed, Some(login.value.message)))
        && (login.Ok? && login.value.LoginAnswer? && Unidentified(login.value.userErrors) ==>
              r == RegisterThenLogin(Field(body, "email"), Field(body, "password"), register, relogin))
        && (login == Ok(LoginAnswer(None, [])) ==> r == Failure(400, BadCredentials, None))
        && (login.Ok? && login.value.LoginAnswer? && login.value.token.Some? && login.value.userErrors == [] ==>
              r == LoggedIn(200, LoginSucceeded, false, login.value.token.value))
    ensures r.LoggedIn? ==> (r.isNewUser <==> r.status == 201) && r.status in {200, 201}
    ensures StatusOf(r) in {200, 201, 400, 500}
  {
    var email := Field(body, "email");
    var password := Field(body, "password");
    var check := CredentialsCheck(email, password, EmailPasswordRequired);
    if !check.Pass? then Failure(400, check.message, None)
    else
      match login
      case Err(e) => Failure(500, LoginFailed, Some(e))
      case Ok(LoginErrors(m)) => Failure(400, LoginFailed, Some(m))
      case Ok(LoginAnswer(token, errors)) =>
        if |errors| > 0 then
          if Unidentified(errors) then RegisterThenLogin(email, password, register, relogin)
          else Refused(LoginRejected, errors)
        else if token.None? then Failure(400, BadCredentials, None)
        else LoggedIn(200, LoginSucceeded, false, token.value)
  }

  /** A new user is reported exactly when the first login named the customer unidentified, the
      registration created one without errors, and the login after it returned a token; an
      existing user exactly when the first login returned a token and no user errors. */
  lemma EmailLoginOutcomes(body: map<string, Value>, login: Result<LoginReply, string>,
                           register: Signup -> Result<RegisterReply, string>, relogin: Result<LoginReply, string>)
    ensures var r := EmailLoginRoute(body, login, register, relogin);
      && (StatusOf(r) == 201 ==>
            && login.Ok? && login.value.LoginAnswer? && Unidentified(login.value.userErrors)
            && register(Signup(Field(body, "email"), Field(body, "password"), "-", "-", false)) == Ok(RegisterAnswer(true, []))
            && relogin.Ok? && relogin.value.LoginAnswer? && r.token == relogin.value.token.value)
      && (StatusOf(r) == 200 ==>
            login.Ok? && login.value.LoginAnswer? && login.value.userErrors == [] && r.token == login.value.token.value)
      && (CredentialsCheck(Field(body, "email"), Field(body, "password"), EmailPasswordRequired).Pass?
          && login.Ok? && login.value.LoginAnswer? && Unidentified(login.value.userErrors)
          && register(Signup(Field(body, "email"), Field(body, "password"), "-", "-", false)) == Ok(RegisterAnswer(true, []))
          && relogin.Ok? && relogin.value.LoginAnswer? && relogin.value.token.Some?
          ==> r == LoggedIn(201, AccountCreated, true, relogin.value.token.value))
      && (CredentialsCheck(Field(body, "email"), Field(body, "password"), EmailPasswordRequired).Pass?
          && login.Ok? && login.value.LoginAnswer? && login.value.userErrors == [] && login.value.token.Some?
          ==> r == LoggedIn(200, LoginSucceeded, false, login.value.token.value))
  {
    var email := Field(body, "email");
    var password := Field(body, "password");
    var r := EmailLoginRoute(body, login, register, relogin);
    if StatusOf(r) == 201 && CredentialsCheck(email, password, EmailPasswordRequired).Pass? {
      assert r == RegisterThenLogin(email, password, register, relogin);
    }
  }

  /** A user error other than an unknown customer is answered with the errors, without
      registering. */
  lemma OtherUserErrorsRefused(body: map<string, Value>, token: Option<AccessToken>, errors: seq<UserError>,
                               register: Signup -> Result<RegisterReply, string>, relogin: Result<LoginReply, string>)
    requires CredentialsCheck(Field(body, "email"), Field(body, "password"), EmailPasswordRequired).Pass?
    requires |errors| > 0 && !Unidentified(errors)
    ensures EmailLoginRoute(body, Ok(LoginAnswer(token, errors)), register, relogin) == Refused(LoginRejected, errors)
  {
  }

  // ---------------------------------------------------------------- POST /shopify/mobile

  const PhoneEmailDomain := "@phone.user"

  /** The synthetic email of a phone login: the phone's digits, then "@phone.user". `replace`
      exists on strings only. */
  function PhoneEmail(phone: Value): (r: Result<string, string>)
    ensures r.Ok? <==> phone.Str?
    ensures r.Ok? ==> r.value == DigitsOnly(phone.s) + PhoneEmailDomain
    ensures r.Err? ==> r.error == NotAFunction("phone.replace")
  {
    match phone
    case Str(s) => Ok(DigitsOnly(s) + PhoneEmailDomain)
    case _ => Err(NotAFunction("phone.replace"))
  }

  /** Phone numbers written with different punctuation get the same email. */
  lemma PhoneEmailIgnoresFormatting(a: string, b: string)
    requires DigitsOnly(a) == DigitsOnly(b)
    ensures PhoneEmail(Str(a)) == PhoneEmail(Str(b))
  {
  }

  /** A phone number made of digits only is the local part of its email. */
  lemma PhoneEmailOfDigits(s: string)
    requires AllDigits(s)
    ensures PhoneEmail(Str(s)) == Ok(s + PhoneEmailDomain)
  {
    DigitsOnlyOfDigits(s);
  }

  /** The `customer` object posted to the Admin API for a phone login. */
  datatype PhoneSignup = PhoneSignup(phone: Value, email: string, firstName: string, lastName: string,
                                     verifiedEmail: bool, acceptsMarketing: bool, password: Value,
                                     passwordConfirmation: Value)

  /** The email of the first customer the phone search found, when the search worked. */
  function FoundEmail(search: Result<seq<Customer>, string>): Option<string> {
    if search.Ok? && |search.value| > 0 then search.value[0].email else None
  }

  /** The catch around the create call and the login after it: an error whose response carries
      `errors` answers 400 with them; any other is rethrown and answered 500. */
  function CreateCaught(e: ApiError): (r: LoginResponse)
    ensures r.RegistrationRefused? <==> Truthy(e.errors)
    ensures r.RegistrationRefused? ==> r.errors == e.errors
    ensures !r.RegistrationRefused? ==> r == Failure(500, LoginFailed, Some(e.message))
  {
    if Truthy(e.errors) then RegistrationRefused(e.errors) else Failure(500, LoginFailed, Some(e.message))
  }

  /** The phone login's registration: the Admin API customer with the synthetic email, then a
      login with that email. Both calls run under the same catch. */
  function RegisterByPhone(phone: Value, password: Value, create: PhoneSignup -> Result<bool, ApiError>,
                           relogin: Result<LoginReply, ApiError>): (r: LoginResponse)
    ensures phone.Str? ==>
      var signup := PhoneSignup(phone, PhoneEmail(phone).value, "-", "-", false, false, password, password);
      && (r.LoggedIn? <==> create(signup) == Ok(true) && relogin.Ok? && AfterRegistration(Ok(relogin.value)).LoggedIn?)
      && (r.LoggedIn? ==> r == AfterRegistration(Ok(relogin.value)))
      && (create(signup).Err? ==> r == CreateCaught(create(signup).error))
      && (create(signup) == Ok(true) && relogin.Err? ==> r == CreateCaught(relogin.error))
    ensures !phone.Str? ==> r == Failure(500, LoginFailed, Some(NotAFunction("phone.replace")))
  {
    match PhoneEmail(phone)
    case Err(e) => Failure(500, LoginFailed, Some(e))
    case Ok(email) =>
      match create(PhoneSignup(phone, email, "-", "-", false, false, password, password))
      case Err(e) => CreateCaught(e)
      case Ok(created) =>
        if !created then Failure(400, CreateAccountFailed, None)
        else
          match relogin
          case Err(e) => CreateCaught(e)
          case Ok(reply) => AfterRegistration(Ok(reply))
  }

  /** A login that throws after the customer was created is answered as a refused registration
      when its error carries `errors`, although the account now exists. */
  lemma CreatedButReportedRefused(phone: string, password: Value, create: PhoneSignup -> Result<bool, ApiError>,
                                  e: ApiError)
    requires create(PhoneSignup(Str(phone), PhoneEmail(Str(phone)).value, "-", "-", false, false, password, password)) == Ok(true)
    requires Truthy(e.errors)
    ensures RegisterByPhone(Str(phone), password, create, Err(e)) == RegistrationRefused(e.errors)
  {
  }

  /** `POST /shopify/mobile`, with the Admin API's phone search (its failure is swallowed), the
      answer to logging in with the found customer's email, the create call and the login
      after it. A login that does not succeed falls through to registration. */
  function MobileLoginRoute(body: map<string, Value>, search: Result<seq<Customer>, string>,
                            existing: Result<LoginReply, string>, create: PhoneSignup -> Result<bool, ApiError>,
                            relogin: Result<LoginReply, ApiError>): (r: LoginResponse)
    ensures var check := CredentialsCheck(Field(body, "phone"), Field(body, "password"), PhonePasswordRequired);
      !check.Pass? ==> r == Failure(400, check.message, None)
    ensures r.LoggedIn? && !r.isNewUser ==>
      && FoundEmail(search).GetOr("") != ""
      && existing.Ok? && existing.value.LoginAnswer? && existing.value.userErrors == []
      && existing.value.token == Some(r.token) && r.status == 200
    ensures r.LoggedIn? && r.isNewUser ==> r == RegisterByPhone(Field(body, "phone"), Field(body, "password"), create, relogin)
    ensures var check := CredentialsCheck(Field(body, "phone"), Field(body, "password"), PhonePasswordRequired);
      check.Pass? && FoundEmail(search).GetOr("") != "" ==>
        && (existing.Err? ==> r == Failure(500, LoginFailed, Some(existing.error)))
        && (existing.Ok? && existing.value.LoginAnswer? && existing.value.token.Some? && existing.value.userErrors == [] ==>
              r == LoggedIn(200, LoginSucceeded, false, existing.value.token.value))
    ensures var check := CredentialsCheck(Field(body, "phone"), Field(body, "password"), PhonePasswordRequired);
      check.Pass? && FoundEmail(search).GetOr("") == "" ==>
        r == RegisterByPhone(Field(body, "phone"), Field(body, "password"), create, relogin)
  {
    var phone := Field(body, "phone");
    var password := Field(body, "password");
    var check := CredentialsCheck(phone, password, PhonePasswordRequired);
    if !check.Pass? then Failure(400, check.message, None)
    else if FoundEmail(search).GetOr("") != "" then
      match existing
      case Err(e) => Failure(500, LoginFailed, Some(e))
      case Ok(reply) =>
        if reply.LoginAnswer? && reply.token.Some? && reply.userErrors == [] then
          LoggedIn(200, LoginSucceeded, false, reply.token.value)
        else
          RegisterByPhone(phone, password, create, relogin)
    else
      RegisterByPhone(phone, password, create, relogin)
  }

  /** When the found customer's login succeeds, nothing is created: the answer does not depend
      on the create call or the login after it. */
  lemma ExistingPhoneCustomerNotRecreated(body: map<string, Value>, search: Result<seq<Customer>, string>,
                                          t: AccessToken,
                                          create: PhoneSignup -> Result<bool, ApiError>, relogin: Result<LoginReply, ApiError>,
                                          create': PhoneSignup -> Result<bool, ApiError>, relogin': Result<LoginReply, ApiError>)
    requires FoundEmail(search).GetOr("") != ""
    ensures MobileLoginRoute(body, search, Ok(LoginAnswer(Some(t), [])), create, relogin)
         == MobileLoginRoute(body, search, Ok(LoginAnswer(Some(t), [])), create', relogin')
  {
  }

  /** A found customer whose login fails (a wrong password, say) is registered anew under the
      synthetic email. */
  lemma FailedLoginRegisters(body: map<string, Value>, search: Result<seq<Customer>, string>, errors: seq<UserError>,
                             create: PhoneSignup -> Result<bool, ApiError>, relogin: Result<LoginReply, ApiError>)
    requires CredentialsCheck(Field(body, "phone"), Field(body, "password"), PhonePasswordRequired).Pass?
    requires |errors| > 0
    ensures MobileLoginRoute(body, search, Ok(LoginAnswer(None, errors)), create, relogin)
         == RegisterByPhone(Field(body, "phone"), Field(body, "password"), create, relogin)
  {
  }

  // ---------------------------------------------------------------- provider names

  /** `name.split(" ")` into the first word and the rest joined back with single spaces. */
  function NameParts(name: string): (r: (string, string))
    ensures !Includes(r.0, " ")
  {
    var parts := Split(name, " ");
    SplitPiecesFree(name, " ");
    (parts[0], Join(parts[1..], " "))
  }

  /** The two parts are the text before the first space and the text after it. */
  lemma NamePartsRoundTrip(name: string)
    ensures var (first, last) := NameParts(name);
      name == (if IndexOf(name, " ").Some? then first + " " + last else first)
    ensures IndexOf(name, " ").None? ==> NameParts(name).1 == ""
  {
    var parts := Split(name, " ");
    SplitJoin(name, " ");
    if IndexOf(name, " ").Some? {
      assert |parts| >= 2;
      assert Join(parts, " ") == parts[0] + " " + Join(parts[1..], " ");
    }
  }

  /** `firstName || descopeFirstName || ""` and `lastName || rest.join(" ") || ""`: names in the
      request win; otherwise the provider's name is split. */
  function ProviderNames(body: map<string, Value>, userName: Option<string>): (r: (Value, Value))
    ensures Truthy(Field(body, "firstName")) ==> r.0 == Field(body, "firstName")
    ensures !Truthy(Field(body, "firstName")) ==> r.0 == Str(NameParts(userName.GetOr("")).0)
    ensures Truthy(Field(body, "lastName")) ==> r.1 == Field(body, "lastName")
    ensures !Truthy(Field(body, "lastName")) ==> r.1 == Str(NameParts(userName.GetOr("")).1)
  {
    var (first, last) := NameParts(userName.GetOr(""));
    (Or(Or(Field(body, "firstName"), Str(first)), Str("")), Or(Or(Field(body, "lastName"), Str(last)), Str("")))
  }

  // ---------------------------------------------------------------- admin session

  /** How a customer is looked up: by email or by phone. */
  datatype Lookup = ByEmail(email: Value) | ByPhone(phone: Value)

  /** `loginToShopifyAdmin`'s answer. */
  datatype AdminSession = AdminSession(customer: Option<Customer>, session: Option<string>, error: Option<string>)

  const SessionPrefix := "shopify-session-for-"

  /** `loginToShopifyAdmin(email, phone)`: the email is preferred, then the phone; no
      identifier means no lookup. A failed lookup is reported, not thrown. */
  function AdminLogin(email: Value, phone: Value, find: Lookup -> Result<Option<Customer>, string>): (r: AdminSession)
    ensures r.session.Some? <==> r.customer.Some?
    ensures r.session.Some? ==> r.session.value == SessionPrefix + NatToString(r.customer.value.id)
    ensures r.error.Some? ==> r.customer.None?
    ensures Truthy(email) ==>
      (if find(ByEmail(email)).Ok? then r.customer == find(ByEmail(email)).value else r.error == Some(find(ByEmail(email)).error))
    ensures !Truthy(email) && Truthy(phone) ==>
      (if find(ByPhone(phone)).Ok? then r.customer == find(ByPhone(phone)).value else r.error == Some(find(ByPhone(phone)).error))
    ensures !Truthy(email) && !Truthy(phone) ==> r == AdminSession(None, None, None)
  {
    var found := if Truthy(email) then find(ByEmail(email)) else if Truthy(phone) then find(ByPhone(phone)) else Ok(None);
    match found
    case Err(e) => AdminSession(None, None, Some(e))
    case Ok(c) => AdminSession(c, if c.Some? then Some(SessionPrefix + NatToString(c.value.id)) else None, None)
  }

  /** A session string names exactly one customer id. */
  lemma SessionNamesCustomer(a: nat, b: nat)
    requires SessionPrefix + NatToString(a) == SessionPrefix + NatToString(b)
    ensures a == b
  {
    var pa := SessionPrefix + NatToString(a);
    assert pa[|SessionPrefix|..] == NatToString(a);
    assert (SessionPrefix + NatToString(b))[|SessionPrefix|..] == NatToString(b);
    NatToStringInjective(a, b);
  }

  // ---------------------------------------------------------------- provider logins

  datatype Provider = Google | Facebook | Apple

  /** The user the identity provider's code exchange returned. */
  datatype ProviderUser = ProviderUser(email: Option<string>, phone: Option<string>, name: Option<string>)

  datatype SessionResponse =
    | Refusal(status: nat, message: string)
    | Welcome(message: string, customer: Option<CustomerView>, isNewCustomer: bool, shopifyAdmin: AdminSession)

  const CodeRequired := "Authorization code is required"
  const PhoneCodeRequired := "Phone number and code are required"
  const CustomerCreated := "Account created successfully"
  const MobileVerified := "Mobile verified successfully"
  const OtpRejected := "Invalid or expired OTP"

  function ProviderName(p: Provider): string {
    match p
    case Google => "Google"
    case Facebook => "Facebook"
    case Apple => "Apple"
  }

  /** `error.message || fallback`. */
  function MessageOr(message: string, fallback: string): (r: string)
    ensures message != "" ==> r == message
    ensures message == "" ==> r == fallback
  {
    if message != "" then message else fallback
  }

  /** Which customer lookup a provider login runs: every provider by email when there is one;
      Facebook alone falls back to the phone; otherwise none. */
  function ProviderLookup(p: Provider, u: ProviderUser): (r: Option<Lookup>)
    ensures u.email.GetOr("") != "" ==> r == Some(ByEmail(Str(u.email.value)))
    ensures u.email.GetOr("") == "" && p == Facebook && u.phone.GetOr("") != "" ==> r == Some(ByPhone(Str(u.phone.value)))
    ensures r.None? <==> u.email.GetOr("") == "" && (p != Facebook || u.phone.GetOr("") == "")
  {
    if u.email.GetOr("") != "" then Some(ByEmail(Str(u.email.value)))
    else if p == Facebook && u.phone.GetOr("") != "" then Some(ByPhone(Str(u.phone.value)))
    else None
  }

  /** `value ?? undefined` for an optional string from the provider. */
  function OptionalValue(s: Option<string>): Value {
    if s.Some? then Str(s.value) else Undefined
  }

  /** The customer step of a login: a failure of find-or-create is swallowed and leaves no
      customer and `isNewCustomer` false. */
  function CustomerStep(lookup: Option<Lookup>, names: (Value, Value),
                        findOrCreate: (Lookup, Value, Value) -> Result<FoundOrCreated, string>,
                        parse: JsonParser): (r: (Option<CustomerView>, bool))
    ensures r.1 ==> lookup.Some? && findOrCreate(lookup.value, names.0, names.1).Ok?
                    && findOrCreate(lookup.value, names.0, names.1).value.isNewCustomer
    ensures r.0.Some? <==> lookup.Some? && findOrCreate(lookup.value, names.0, names.1).Ok?
  {
    if lookup.None? then (None, false)
    else
      match findOrCreate(lookup.value, names.0, names.1)
      case Err(_) => (None, false)
      case Ok(result) => (Some(FormatCustomerResponse(result.customer, parse)), result.isNewCustomer)
  }

  /** `POST /<provider>/exchange`, with the provider's answer to the code exchange, the customer
      service's find-or-create and the admin lookup. Once the exchange succeeds the answer is
      200 whatever the customer service does. */
  function ExchangeRoute(p: Provider, body: map<string, Value>, exchange: Result<ProviderUser, string>,
                         findOrCreate: (Lookup, Value, Value) -> Result<FoundOrCreated, string>,
                         find: Lookup -> Result<Option<Customer>, string>, parse: JsonParser): (r: SessionResponse)
    ensures !Truthy(Field(body, "code")) ==> r == Refusal(400, CodeRequired)
    ensures Truthy(Field(body, "code")) && exchange.Err? ==>
      r == Refusal(401, MessageOr(exchange.error, "Failed to complete " + ProviderName(p) + " login"))
    ensures r.Welcome? <==> Truthy(Field(body, "code")) && exchange.Ok?
    ensures r.Welcome? ==>
      var u := exchange.value;
      && r.shopifyAdmin == AdminLogin(OptionalValue(u.email), if p == Facebook then OptionalValue(u.phone) else Null, find)
      && (r.isNewCustomer ==> ProviderLookup(p, u).Some?)
      && (r.message == CustomerCreated <==> r.isNewCustomer)
  {
    if !Truthy(Field(body, "code")) then Refusal(400, CodeRequired)
    else
      match exchange
      case Err(m) => Refusal(401, MessageOr(m, "Failed to complete " + ProviderName(p) + " login"))
      case Ok(u) =>
        var (customer, isNew) := CustomerStep(ProviderLookup(p, u), ProviderNames(body, u.name), findOrCreate, parse);
        var admin := AdminLogin(OptionalValue(u.email), if p == Facebook then OptionalValue(u.phone) else Null, find);
        Welcome(if isNew then CustomerCreated else ProviderName(p) + " login successful", customer, isNew, admin)
  }

  /** A Facebook user with neither email nor phone skips the customer lookup and is still
      welcomed, as an existing customer with no customer record. */
  lemma FacebookWithoutContact(body: map<string, Value>, u: ProviderUser,
                               findOrCreate: (Lookup, Value, Value) -> Result<FoundOrCreated, string>,
                               find: Lookup -> Result<Option<Customer>, string>, parse: JsonParser)
    requires Truthy(Field(body, "code"))
    requires u.email.GetOr("") == "" && u.phone.GetOr("") == ""
    ensures var r := ExchangeRoute(Facebook, body, Ok(u), findOrCreate, find, parse);
      r.Welcome? && r.customer.None? && !r.isNewCustomer && r.message == "Facebook login successful"
  {
  }

  /** Google and Apple never look a customer up by phone. */
  lemma OnlyFacebookUsesPhone(p: Provider, u: ProviderUser)
    requires p != Facebook
    ensures ProviderLookup(p, u).Some? ==> ProviderLookup(p, u).value.ByEmail?
  {
  }

  /** `POST /mobile/verify`, with the provider's answer to the code check. */
  function MobileVerifyRoute(body: map<string, Value>, verified: Result<(), string>,
                             findOrCreate: (Lookup, Value, Value) -> Result<FoundOrCreated, string>,
                             find: Lookup -> Result<Option<Customer>, string>, parse: JsonParser): (r: SessionResponse)
    ensures !Truthy(Field(body, "phone")) || !Truthy(Field(body, "code")) ==> r == Refusal(400, PhoneCodeRequired)
    ensures Truthy(Field(body, "phone")) && Truthy(Field(body, "code")) && verified.Err? ==>
      r == Refusal(401, MessageOr(verified.error, OtpRejected))
    ensures r.Welcome? <==> Truthy(Field(body, "phone")) && Truthy(Field(body, "code")) && verified.Ok?
    ensures r.Welcome? ==>
      var names := (Or(Field(body, "firstName"), Str("")), Or(Field(body, "lastName"), Str("")));
      r.customer == CustomerStep(Some(ByPhone(Field(body, "phone"))), names, findOrCreate, parse).0
    ensures r.Welcome? ==>
      && r.shopifyAdmin == AdminLogin(Null, Field(body, "phone"), find)
      && (r.isNewCustomer <==>
            var names := (Or(Field(body, "firstName"), Str("")), Or(Field(body, "lastName"), Str("")));
            findOrCreate(ByPhone(Field(body, "phone")), names.0, names.1).Ok?
            && findOrCreate(ByPhone(Field(body, "phone")), names.0, names.1).value.isNewCustomer)
      && (r.message == CustomerCreated <==> r.isNewCustomer)
  {
    var phone := Field(body, "phone");
    if !Truthy(phone) || !Truthy(Field(body, "code")) then Refusal(400, PhoneCodeRequired)
    else
      match verified
      case Err(m) => Refusal(401, MessageOr(m, OtpRejected))
      case Ok(_) =>
        var names := (Or(Field(body, "firstName"), Str("")), Or(Field(body, "lastName"), Str("")));
        var (customer, isNew) := CustomerStep(Some(ByPhone(phone)), names, findOrCreate, parse);
        Welcome(if isNew then CustomerCreated else MobileVerified, customer, isNew, AdminLogin(Null, phone, find))
  }

  /** A verified phone is welcomed with the formatted customer that find-or-create returned
      for it, or with none when find-or-create failed; the login goes ahead either way. */
  lemma MobileVerifyCustomer(body: map<string, Value>,
                             findOrCreate: (Lookup, Value, Value) -> Result<FoundOrCreated, string>,
                             find: Lookup -> Result<Option<Customer>, string>, parse: JsonParser)
    requires Truthy(Field(body, "phone")) && Truthy(Field(body, "code"))
    ensures var r := MobileVerifyRoute(body, Ok(()), findOrCreate, find, parse);
      var found := findOrCreate(ByPhone(Field(body, "phone")), Or(Field(body, "firstName"), Str("")),
                                Or(Field(body, "lastName"), Str("")));
      && r.Welcome?
      && r.customer == (if found.Ok? then Some(FormatCustomerResponse(found.value.customer, parse)) else None)
      && (r.isNewCustomer <==> found.Ok? && found.value.isNewCustomer)
  {
  }
}
