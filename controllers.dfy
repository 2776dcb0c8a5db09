/**
 The login handler `loginUser` as one total decision from the request body and
 the answers of its two collaborators to the single response it writes.

 The identity provider's email/password sign-in and the JWT signer are
 parameters: `signIn` is what Firebase answers for the credentials it is given,
 `sign` what `jwt.sign` answers for the claims it is given (it throws, for
 instance, when no signing secret is configured). Either failure reaches the
 same `catch` block, which classifies the thrown error by its `code`.
 */
module Controllers {
  import opened Wrappers
  import opened AuthSchema

  /** The provider's account record, as far as the handler reads it. */
  datatype User = User(uid: string, email: string, emailVerified: bool)

  /** A thrown error: Firebase errors carry a `code` such as
      `auth/wrong-password`; other errors (a signing failure) have none. */
  datatype Thrown = Thrown(code: Option<string>, message: string)

  datatype SignInResult = SignedIn(user: User) | SignInFailed(error: Thrown)

  /** Email/password sign-in at the identity provider. */
  type SignIn = (string, string) -> SignInResult

  /** The payload and lifetime given to the JWT signer. */
  datatype Claims = Claims(uid: string, email: string, expiresInSeconds: nat)

  datatype SignResult = Signed(token: string) | SignFailed(error: Thrown)

  /** `jwt.sign` with the process-wide secret. */
  type Signer = Claims -> SignResult

  /** `expiresIn: '24h'`. */
  const TokenLifetimeSeconds: nat := 24 * 60 * 60

  datatype LoginData = LoginData(token: string, user: User)

  /** The status and JSON body of the one response a request gets; a field
      that is `None` is absent from the JSON. */
  datatype Response = Response(
    status: nat,
    success: bool,
    message: string,
    errors: Option<seq<string>>,
    data: Option<LoginData>,
    debug: Option<string>)

  // ---------------------------------------------------------------------------
  // The error classifier of the catch block

  const GenericAuthMessage := "Authentication failed"

  /** The four provider codes the handler names, each with its own message. */
  const KnownAuthCodes: set<string> :=
    {"auth/user-not-found", "auth/wrong-password", "auth/user-disabled", "auth/too-many-requests"}

  /** `error.code && error.code.startsWith('auth/')`: a present, non-empty code
      that begins with `auth/`. */
  predicate IsAuthError(e: Thrown) {
    e.code.Some? && e.code.value != "" && "auth/" <= e.code.value
  }

  /** The `switch` on a provider code. */
  function AuthErrorMessage(code: string): (message: string) {
    if code == "auth/user-not-found" then "No user found with this email"
    else if code == "auth/wrong-password" then "Incorrect password"
    else if code == "auth/user-disabled" then "This account has been disabled"
    else if code == "auth/too-many-requests" then "Too many failed attempts. Please try again later"
    else GenericAuthMessage
  }

  /** The response the catch block writes for a thrown error. */
  function MapAuthError(e: Thrown): (r: Response)
    ensures !r.success && r.status in {401, 500}
    ensures r.status == 401 <==> IsAuthError(e)
  {
    if IsAuthError(e) then
      Response(401, false, AuthErrorMessage(e.code.value), None, None, None)
    else
      Response(500, false, "Internal server error", None, None, Some(e.message))
  }

  // ---------------------------------------------------------------------------
  // The handler

  /** The response `loginUser` writes. */
  function LoginOutcome(body: Body, isEmail: EmailCheck, signIn: SignIn, sign: Signer): (r: Response)
    ensures r.status in {201, 400, 401, 500}
    ensures r.success <==> r.status == 201
    ensures r.errors.Some? <==> r.status == 400
    ensures r.debug.Some? <==> r.status == 500
  {
    var v := Validate(LoginSchema, body, isEmail);
    if v.details != [] then
      Response(400, false, "Validation failed", Some(Messages(v.details)), None, None)
    else
      LoginValidation(body, isEmail);
      assert "email" in Keys(LoginSchema) && "password" in Keys(LoginSchema) by {
        assert LoginSchema[0].key == "email" && LoginSchema[1].key == "password";
      }
      var email := v.value["email"].text;
      var password := v.value["password"].text;
      match signIn(email, password)
      case SignInFailed(e) => MapAuthError(e)
      case SignedIn(user) =>
        match sign(Claims(user.uid, user.email, TokenLifetimeSeconds))
        case SignFailed(e) => MapAuthError(e)
        case Signed(token) =>
          Response(201, true, "Login successful", None, Some(LoginData(token, user)), None)
  }

  // ---------------------------------------------------------------------------
  // Properties of the classifier

  /** The code table: each known code has its own message, and every other
      `auth/` code gets the generic one. */
  lemma AuthErrorTable(code: string)
    ensures AuthErrorMessage("auth/user-not-found") == "No user found with this email"
    ensures AuthErrorMessage("auth/wrong-password") == "Incorrect password"
    ensures AuthErrorMessage("auth/user-disabled") == "This account has been disabled"
    ensures AuthErrorMessage("auth/too-many-requests") == "Too many failed attempts. Please try again later"
    ensures AuthErrorMessage(code) == GenericAuthMessage <==> code !in KnownAuthCodes
  {
  }

  /** An error whose code starts with `auth/` is answered 401 with the table's
      message and no debug field; any other error (no code, an empty code, or a
      code without the prefix) is answered 500 with the error's own message as
      debug. */
  lemma MapAuthErrorClassifies(e: Thrown)
    ensures var r := MapAuthError(e);
            && !r.success && r.errors.None? && r.data.None?
            && (IsAuthError(e) ==> r.status == 401 && r.message == AuthErrorMessage(e.code.value) && r.debug.None?)
            && (!IsAuthError(e) ==> r.status == 500 && r.message == "Internal server error" && r.debug == Some(e.message))
  {
  }

  /** Codes without the prefix, and an absent or empty code, are not provider
      authentication errors. */
  lemma NonAuthCodes(message: string)
    ensures !IsAuthError(Thrown(None, message))
    ensures !IsAuthError(Thrown(Some(""), message))
    ensures !IsAuthError(Thrown(Some("app/network-error"), message))
    ensures !IsAuthError(Thrown(Some("auth"), message))
    ensures IsAuthError(Thrown(Some("auth/"), message))
  {
    assert !("auth/" <= "app/network-error") by { assert "app/network-error"[1] != "auth/"[1]; }
  }

  // ---------------------------------------------------------------------------
  // Properties of the handler

  /** The branch a request takes, read off the inputs: the payload fails the
      login schema, or sign-in and signing both succeed, or one of them throws
      a provider error or some other error. */
  datatype Path = ValidationFailure | Success | AuthFailure | InternalFailure

  function FailurePath(e: Thrown): (path: Path) {
    if IsAuthError(e) then AuthFailure else InternalFailure
  }

  function PathOf(body: Body, isEmail: EmailCheck, signIn: SignIn, sign: Signer): (path: Path) {
    if !LoginPayloadValid(body, isEmail) then ValidationFailure
    else
      match signIn(body["email"].text, body["password"].text)
      case SignInFailed(e) => FailurePath(e)
      case SignedIn(user) =>
        match sign(Claims(user.uid, user.email, TokenLifetimeSeconds))
        case SignFailed(e) => FailurePath(e)
        case Signed(_) => Success
  }

  function StatusOf(path: Path): (status: nat) {
    match path
    case ValidationFailure => 400
    case Success => 201
    case AuthFailure => 401
    case InternalFailure => 500
  }

  /** Every request gets exactly one of four responses, and the status alone
      tells which: 400 carries the error list, 201 the data, 500 the debug
      message, and only 201 reports success. */
  lemma ExactlyOneResponse(body: Body, isEmail: EmailCheck, signIn: SignIn, sign: Signer)
    ensures var r := LoginOutcome(body, isEmail, signIn, sign);
            var path := PathOf(body, isEmail, signIn, sign);
            && r.status == StatusOf(path)
            && (r.success <==> path == Success)
            && (r.errors.Some? <==> path == ValidationFailure)
            && (r.data.Some? <==> path == Success)
            && (r.debug.Some? <==> path == InternalFailure)
  {
    LoginValidation(body, isEmail);
    if LoginPayloadValid(body, isEmail) {
      CleanedCredentials(body, isEmail);
    }
  }

  /** The cleaned value holds the body's own email and password once the
      payload is valid. */
  lemma CleanedCredentials(body: Body, isEmail: EmailCheck)
    requires LoginPayloadValid(body, isEmail)
    ensures var clean := Validate(LoginSchema, body, isEmail).value;
            && "email" in clean && clean["email"] == body["email"]
            && "password" in clean && clean["password"] == body["password"]
  {
    assert LoginSchema[0].key == "email" && LoginSchema[1].key == "password";
  }

  /** A payload that fails validation is answered 400 with one message per
      violation, in order, whatever the provider and the signer would do. */
  lemma ValidationFailureResponse(body: Body, isEmail: EmailCheck, signIn: SignIn, sign: Signer)
    requires !LoginPayloadValid(body, isEmail)
    ensures var r := LoginOutcome(body, isEmail, signIn, sign);
            var details := Validate(LoginSchema, body, isEmail).details;
            && r.status == 400 && !r.success && r.message == "Validation failed"
            && r.errors.Some? && |r.errors.value| == |details| > 0
            && (forall i | 0 <= i < |details| :: r.errors.value[i] == Message(details[i]))
            && r.data.None? && r.debug.None?
  {
    LoginValidation(body, isEmail);
  }

  /** When validation fails, sign-in is never reached: the response does not
      depend on the provider or the signer. */
  lemma ValidationFailureIgnoresProvider(body: Body, isEmail: EmailCheck,
                                         signIn1: SignIn, sign1: Signer,
                                         signIn2: SignIn, sign2: Signer)
    requires !LoginPayloadValid(body, isEmail)
    ensures LoginOutcome(body, isEmail, signIn1, sign1) == LoginOutcome(body, isEmail, signIn2, sign2)
  {
    LoginValidation(body, isEmail);
  }

  /** Sign-in receives the body's email and password and nothing else: two
      providers that answer alike for those credentials give the same response. */
  lemma SignInSeesOnlyCredentials(body: Body, isEmail: EmailCheck,
                                  signIn1: SignIn, signIn2: SignIn, sign: Signer)
    requires LoginPayloadValid(body, isEmail)
    requires signIn1(body["email"].text, body["password"].text) == signIn2(body["email"].text, body["password"].text)
    ensures LoginOutcome(body, isEmail, signIn1, sign) == LoginOutcome(body, isEmail, signIn2, sign)
  {
    LoginValidation(body, isEmail);
    CleanedCredentials(body, isEmail);
  }

  /** Keys other than `email` and `password` have no effect on the response. */
  lemma UndeclaredKeysIgnored(b1: Body, b2: Body, isEmail: EmailCheck, signIn: SignIn, sign: Signer)
    requires forall k | k in {"email", "password"} :: (k in b1 <==> k in b2) && (k in b1 ==> b1[k] == b2[k])
    ensures LoginOutcome(b1, isEmail, signIn, sign) == LoginOutcome(b2, isEmail, signIn, sign)
  {
    assert Keys(LoginSchema) == {"email", "password"} by {
      assert LoginSchema[0].key == "email" && LoginSchema[1].key == "password";
      CleanedKeysDeclared(b1, isEmail);
    }
    ViolationsIgnoreUndeclared(LoginSchema, b1, b2, isEmail);
    LoginValidation(b1, isEmail);
    LoginValidation(b2, isEmail);
    if LoginPayloadValid(b1, isEmail) {
      CleanedCredentials(b1, isEmail);
      CleanedCredentials(b2, isEmail);
    }
  }

  /** A successful sign-in and signing give 201 with the provider's user and
      the token signed for exactly `{uid, email}` with a 24 hour lifetime; and
      no other inputs give success. */
  lemma SuccessResponse(body: Body, isEmail: EmailCheck, signIn: SignIn, sign: Signer)
    ensures var r := LoginOutcome(body, isEmail, signIn, sign);
            r.success <==>
              && LoginPayloadValid(body, isEmail)
              && signIn(body["email"].text, body["password"].text).SignedIn?
              && var user := signIn(body["email"].text, body["password"].text).user;
                 sign(Claims(user.uid, user.email, TokenLifetimeSeconds)).Signed?
    ensures var r := LoginOutcome(body, isEmail, signIn, sign);
            r.success ==>
              && var user := signIn(body["email"].text, body["password"].text).user;
                 && r.status == 201 && r.message == "Login successful"
                 && r.errors.None? && r.debug.None? && r.data.Some?
                 && r.data.value.user.uid == user.uid
                 && r.data.value.user.email == user.email
                 && r.data.value.user.emailVerified == user.emailVerified
                 && Signed(r.data.value.token) == sign(Claims(user.uid, user.email, 86400))
  {
    LoginValidation(body, isEmail);
    if LoginPayloadValid(body, isEmail) {
      CleanedCredentials(body, isEmail);
    }
  }

  /** A provider error after a valid payload is answered by the classifier. */
  lemma SignInFailureResponse(body: Body, isEmail: EmailCheck, signIn: SignIn, sign: Signer)
    requires LoginPayloadValid(body, isEmail)
    requires signIn(body["email"].text, body["password"].text).SignInFailed?
    ensures LoginOutcome(body, isEmail, signIn, sign) ==
            MapAuthError(signIn(body["email"].text, body["password"].text).error)
  {
    LoginValidation(body, isEmail);
    CleanedCredentials(body, isEmail);
  }

  /** A signing failure after a successful sign-in (for instance, no signing
      secret configured) is answered by the same classifier: a thrown error
      without a code gives 500 with its message as debug. */
  lemma SignFailureResponse(body: Body, isEmail: EmailCheck, signIn: SignIn, sign: Signer)
    requires LoginPayloadValid(body, isEmail)
    requires signIn(body["email"].text, body["password"].text).SignedIn?
    requires var user := signIn(body["email"].text, body["password"].text).user;
             sign(Claims(user.uid, user.email, TokenLifetimeSeconds)).SignFailed?
    ensures var user := signIn(body["email"].text, body["password"].text).user;
            LoginOutcome(body, isEmail, signIn, sign) ==
            MapAuthError(sign(Claims(user.uid, user.email, TokenLifetimeSeconds)).error)
  {
    LoginValidation(body, isEmail);
    CleanedCredentials(body, isEmail);
  }
}
