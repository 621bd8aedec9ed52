/**
 * Login (backend/src/routes/login.ts): a presence check on email and
 * password, the user lookup, the password comparison, token issue, and a
 * reply that sets both tokens as http-only, secure cookies.
 *
 * `found` is the `_id` `findOne({ email })` found (None for null),
 * `passwordOk` what `isPasswordCorrect` resolved to, `tokensFor` the token
 * issue for an id and `findById` the read-back of an id.
 */
module AuthLogin {
  import opened JsValues
  import Text
  import opened Express
  import AuthRegister

  const CredentialsRequired := "Email and password are required"
  const UserNotFound := "User not found"
  const InvalidPassword := "Invalid password"
  const LoggedIn := "User logged in successfully"

  /** The cookie options the reply uses for both tokens. */
  function TokenCookie(name: string, value: string): Cookie
  {
    Cookie(name, value, true, true)
  }

  /** Whether every awaited step of a login succeeded. */
  predicate Completes(
    email: JsValue, password: JsValue,
    found: Outcome<Option<string>>, passwordOk: Outcome<bool>,
    tokensFor: string -> Outcome<Tokens>, findById: string -> Outcome<Option<string>>)
  {
    && Truthy(email) && Truthy(password)
    && found.Returned? && found.value.Some?
    && passwordOk == Returned(true)
    && tokensFor(found.value.value).Returned?
    && findById(found.value.value).Returned?
  }

  /**
   * The login handler. 400 exactly when email or password is falsy (no
   * trimming here); 404 exactly when the lookup finds no user; 401 exactly
   * when the password does not match; 200 exactly when every step succeeds,
   * and then both tokens are in the body and in http-only, secure cookies
   * (the user read back may be null and the login still succeeds); every
   * other path is 500.
   */
  function Login(
    email: JsValue, password: JsValue,
    found: Outcome<Option<string>>, passwordOk: Outcome<bool>,
    tokensFor: string -> Outcome<Tokens>, findById: string -> Outcome<Option<string>>): (r: Reply)
    ensures r.status in {200, 400, 401, 404, 500}
    ensures r.success <==> r.status == 200
    ensures r.status == 400 <==> !Truthy(email) || !Truthy(password)
    ensures r.status == 404 <==> Truthy(email) && Truthy(password) && found == Returned(None)
    ensures r.status == 401 <==>
      Truthy(email) && Truthy(password) && found.Returned? && found.value.Some? && passwordOk == Returned(false)
    ensures r.status == 200 <==> Completes(email, password, found, passwordOk, tokensFor, findById)
    ensures r.status == 200 ==>
      var tokens := tokensFor(found.value.value).value;
      && r.message == LoggedIn
      && r.user == findById(found.value.value).value
      && r.accessToken == Some(tokens.access) && r.refreshToken == Some(tokens.refresh)
      && r.cookies == [TokenCookie("accessToken", tokens.access), TokenCookie("refreshToken", tokens.refresh)]
    ensures r.status != 200 ==> r.cookies == [] && r.accessToken == None && r.refreshToken == None
    ensures r.status == 400 ==> r == Failure(400, CredentialsRequired)
    ensures r.status == 404 ==> r == Failure(404, UserNotFound)
    ensures r.status == 401 ==> r == Failure(401, InvalidPassword)
    ensures r.status == 500 ==> r == Failure(500, ServerError)
  {
    if !Truthy(email) || !Truthy(password) then Failure(400, CredentialsRequired)
    else match found
      case Threw(_) => Failure(500, ServerError)
      case Returned(None) => Failure(404, UserNotFound)
      case Returned(Some(id)) =>
        match passwordOk
        case Threw(_) => Failure(500, ServerError)
        case Returned(false) => Failure(401, InvalidPassword)
        case Returned(true) =>
          match tokensFor(id)
          case Threw(_) => Failure(500, ServerError)
          case Returned(tokens) =>
            match findById(id)
            case Threw(_) => Failure(500, ServerError)
            case Returned(user) =>
              Reply(200, true, LoggedIn, user, Some(tokens.access), Some(tokens.refresh),
                    [TokenCookie("accessToken", tokens.access), TokenCookie("refreshToken", tokens.refresh)])
  }

  /** An unknown email is answered 404 before the password is compared or any token issued. */
  lemma UnknownUserStopsEarly(
    email: JsValue, password: JsValue,
    ok1: Outcome<bool>, tokens1: string -> Outcome<Tokens>, find1: string -> Outcome<Option<string>>,
    ok2: Outcome<bool>, tokens2: string -> Outcome<Tokens>, find2: string -> Outcome<Option<string>>)
    requires Truthy(email) && Truthy(password)
    ensures Login(email, password, Returned(None), ok1, tokens1, find1)
         == Login(email, password, Returned(None), ok2, tokens2, find2)
         == Failure(404, UserNotFound)
  {
  }

  /** A wrong password never issues tokens: the reply is 401 whatever token issue would give. */
  lemma WrongPasswordIssuesNothing(
    email: JsValue, password: JsValue, id: string,
    tokens1: string -> Outcome<Tokens>, find1: string -> Outcome<Option<string>>,
    tokens2: string -> Outcome<Tokens>, find2: string -> Outcome<Option<string>>)
    requires Truthy(email) && Truthy(password)
    ensures Login(email, password, Returned(Some(id)), Returned(false), tokens1, find1)
         == Login(email, password, Returned(Some(id)), Returned(false), tokens2, find2)
         == Failure(401, InvalidPassword)
  {
  }

  /**
   * Login checks presence without trimming, registration with it: whitespace
   * credentials get past login's check, while registration refuses them.
   */
  lemma WhitespaceCredentialsPassLoginOnly(
    name: JsValue, blank: string,
    found: Outcome<Option<string>>, passwordOk: Outcome<bool>,
    tokensFor: string -> Outcome<Tokens>, findById: string -> Outcome<Option<string>>,
    existing: Outcome<bool>, created: Outcome<string>)
    requires blank != [] && Text.IsBlank(blank)
    requires AuthRegister.Passes(name)
    ensures Login(Str(blank), Str(blank), found, passwordOk, tokensFor, findById).status != 400
    ensures AuthRegister.Register(name, Str(blank), Str(blank), existing, created, tokensFor, findById).status == 400
  {
    assert AuthRegister.Missing(Str(blank));
    assert [name, Str(blank), Str(blank)][1] == Str(blank);
  }
}
