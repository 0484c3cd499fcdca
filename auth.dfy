/** The session configuration: the credentials check that turns a backend login
    into a session user, and the two callbacks that copy that user into the
    signed token and from the token into the session handed to pages. */
module Auth {
  import opened Js
  import opened AuthTypes
  import Decimal

  const LoginFailedMessage: string := "Giriş başarısız"
  const LoginErrorMessage: string := "Giriş sırasında bir hata oluştu"

  /** What the login form submits; either field may be missing. */
  datatype Credentials = Credentials(email: Option<string>, password: Option<string>)

  /** The body of the backend's `/auth/login` answer. */
  datatype LoginResponse =
    | LoginSucceeded(data: AuthData)
    | LoginRejected(message: Option<string>)

  /** What a JavaScript `throw` can carry: an `Error` with its message, or
      some other value. */
  datatype Thrown = ErrorObject(message: string) | OtherValue

  /** The outcome of the login request and of reading its JSON body. */
  datatype LoginFetch = Responded(body: LoginResponse) | FetchThrew(error: Thrown)

  /** The user `authorize` hands to the session library. */
  datatype User = User(
    id: string,
    name: string,
    email: string,
    image: Option<string>,
    userType: string,
    status: string,
    accessToken: string)

  /** `authorize` returns `null`, returns a user, or throws an `Error`. */
  datatype AuthorizeResult = NoUser | Authorized(user: User) | Failed(message: string)

  /** Credentials only reach the backend when both fields are non-empty. */
  function HasCredentials(credentials: Option<Credentials>): (r: bool)
    // both fields present, and neither the empty string
    ensures r <==> && credentials.Some?
                   && credentials.value.email.Some? && credentials.value.email.value != ""
                   && credentials.value.password.Some? && credentials.value.password.value != ""
  {
    credentials.Some? && Truthy(credentials.value.email) && Truthy(credentials.value.password)
  }

  /** The session user built from the backend's user and access token. */
  function ToUser(apiUser: ApiUser, token: string): (u: User)
    // the id is `String(id)`, which reads back as the backend's number
    ensures u.id == Decimal.IntToString(apiUser.id)
    ensures Decimal.ParseInt(u.id) == Some(apiUser.id)
    ensures u.image == apiUser.avatar && u.accessToken == token
    ensures u.name == apiUser.name && u.email == apiUser.email
    ensures u.userType == apiUser.userType && u.status == apiUser.status
  {
    Decimal.IntRoundTrip(apiUser.id);
    User(Decimal.IntToString(apiUser.id), apiUser.name, apiUser.email, apiUser.avatar,
         apiUser.userType, apiUser.status, token)
  }

  /** The `try` block of `authorize`: a user, or what it throws. */
  datatype Attempt = Returned(user: User) | Raised(error: Thrown)

  function TryLogin(fetch: LoginFetch): (a: Attempt)
    // a user exactly when the backend's body says the login succeeded
    ensures a.Returned? <==> fetch.Responded? && fetch.body.LoginSucceeded?
    ensures a.Returned? ==> a.user == ToUser(fetch.body.data.user, fetch.body.data.token)
    // a rejection throws an `Error` with the backend's message, or the
    // fixed one when that is missing or empty
    ensures fetch.Responded? && fetch.body.LoginRejected? ==>
      && a.Raised? && a.error.ErrorObject? && a.error.message != ""
      && a.error.message == (if Truthy(fetch.body.message) then fetch.body.message.value else LoginFailedMessage)
    // whatever the request itself throws propagates unchanged
    ensures fetch.FetchThrew? ==> a == Raised(fetch.error)
  {
    match fetch
    case FetchThrew(e) => Raised(e)
    case Responded(LoginRejected(m)) => Raised(ErrorObject(Or(m, LoginFailedMessage)))
    case Responded(LoginSucceeded(data)) => Returned(ToUser(data.user, data.token))
  }

  /** The `catch` block of `authorize`: the message of the `Error` it rethrows. */
  function RethrownMessage(e: Thrown): (m: string)
    ensures e.ErrorObject? ==> m == e.message
    ensures e.OtherValue? ==> m == LoginErrorMessage
  {
    match e
    case ErrorObject(message) => message
    case OtherValue => LoginErrorMessage
  }

  /** `authorize(credentials)`, with the backend's answer given as `fetch`. */
  function Authorize(credentials: Option<Credentials>, fetch: LoginFetch): (r: AuthorizeResult)
    // no user exactly when a credential is missing or empty
    ensures r.NoUser? <==> !HasCredentials(credentials)
    // a signed-in user exactly when the backend accepted the login
    ensures r.Authorized? <==> HasCredentials(credentials) && fetch.Responded? && fetch.body.LoginSucceeded?
    ensures r.Authorized? ==> r.user == ToUser(fetch.body.data.user, fetch.body.data.token)
    // a rejection keeps the backend's message, or says that the login failed
    ensures HasCredentials(credentials) && fetch == Responded(LoginRejected(None)) ==>
      r == Failed(LoginFailedMessage)
    ensures HasCredentials(credentials) && fetch.Responded? && fetch.body.LoginRejected? ==>
      r == Failed(if Truthy(fetch.body.message) then fetch.body.message.value else LoginFailedMessage)
    // an error from the request itself is rethrown with its own message
    ensures HasCredentials(credentials) && fetch == FetchThrew(OtherValue) ==> r == Failed(LoginErrorMessage)
    ensures HasCredentials(credentials) && fetch.FetchThrew? && fetch.error.ErrorObject? ==>
      r == Failed(fetch.error.message)
  {
    if !HasCredentials(credentials) then NoUser
    else
      match TryLogin(fetch)
      case Returned(user) => Authorized(user)
      case Raised(e) => Failed(RethrownMessage(e))
  }

  /** Without both credentials the backend's answer plays no part: the result
      is `null` whatever the login request would have returned. */
  lemma {:induction false} MissingCredentialsIgnoreBackend(
    credentials: Option<Credentials>, fetch: LoginFetch, other: LoginFetch)
    requires !HasCredentials(credentials)
    ensures Authorize(credentials, fetch) == Authorize(credentials, other) == NoUser
  {
  }

  /** The fields of the signed token this configuration reads and writes,
      beside the library's own claims (subject, issue and expiry times). */
  datatype TokenView = TokenView(
    id: Option<string>,
    name: Option<string>,
    email: Option<string>,
    image: Option<string>,
    userType: Option<string>,
    status: Option<string>,
    accessToken: Option<string>,
    claims: map<string, string>)

  /** The token as the `jwt` callback leaves it. */
  function JwtUpdate(t: TokenView, user: Option<User>): (r: TokenView)
    // without a sign-in nothing changes
    ensures user.None? ==> r == t
    // on sign-in the seven user fields are copied from the user
    ensures user.Some? ==>
      && r.id == Some(user.value.id) && r.name == Some(user.value.name)
      && r.email == Some(user.value.email) && r.image == user.value.image
      && r.userType == Some(user.value.userType) && r.status == Some(user.value.status)
      && r.accessToken == Some(user.value.accessToken)
    // the library's own claims are never touched
    ensures r.claims == t.claims
  {
    match user
    case None => t
    case Some(u) =>
      t.(id := Some(u.id), name := Some(u.name), email := Some(u.email), image := u.image,
         userType := Some(u.userType), status := Some(u.status), accessToken := Some(u.accessToken))
  }

  /** The signed token the session library passes to the `jwt` callback. */
  class Token {
    var id: Option<string>
    var name: Option<string>
    var email: Option<string>
    var image: Option<string>
    var userType: Option<string>
    var status: Option<string>
    var accessToken: Option<string>
    var claims: map<string, string>

    function View(): TokenView
      reads this
    {
      TokenView(id, name, email, image, userType, status, accessToken, claims)
    }

    constructor (v: TokenView)
      ensures View() == v
    {
      id, name, email, image := v.id, v.name, v.email, v.image;
      userType, status, accessToken, claims := v.userType, v.status, v.accessToken, v.claims;
    }
  }

  /** The `jwt` callback: on sign-in it copies the user's seven fields into
      the token it was given, and it returns that same token. */
  method JwtCallback(token: Token, user: Option<User>) returns (r: Token)
    modifies token
    ensures r == token
    ensures token.View() == JwtUpdate(old(token.View()), user)
  {
    if user.Some? {
      var u := user.value;
      token.id := Some(u.id);
      token.name := Some(u.name);
      token.email := Some(u.email);
      token.image := u.image;
      token.userType := Some(u.userType);
      token.status := Some(u.status);
      token.accessToken := Some(u.accessToken);
    }
    r := token;
  }

  /** The user as pages see it in the session. */
  datatype SessionUser = SessionUser(
    id: Option<string>,
    name: string,
    email: string,
    image: Option<string>,
    userType: Option<string>,
    status: Option<string>)

  datatype SessionView = SessionView(user: Option<SessionUser>, expires: string, accessToken: Option<string>)

  /** The session as the `session` callback leaves it. */
  function SessionUpdate(s: SessionView, t: TokenView): (r: SessionView)
    ensures r.user.Some? && r.expires == s.expires
    ensures r.accessToken == t.accessToken
    // identity fields are passed on as the token has them
    ensures r.user.value.id == t.id && r.user.value.userType == t.userType && r.user.value.status == t.status
    // a missing name or email becomes the empty string, a present one is kept
    ensures t.name.Some? ==> r.user.value.name == t.name.value
    ensures t.name.None? ==> r.user.value.name == ""
    ensures t.email.Some? ==> r.user.value.email == t.email.value
    ensures t.email.None? ==> r.user.value.email == ""
    // a missing image stays missing (`null`)
    ensures r.user.value.image == t.image
  {
    s.(user := Some(SessionUser(t.id, Coalesce(t.name, ""), Coalesce(t.email, ""), t.image, t.userType, t.status)),
       accessToken := t.accessToken)
  }

  /** The session object the library passes to the `session` callback. */
  class Session {
    var user: Option<SessionUser>
    var expires: string
    var accessToken: Option<string>

    function View(): SessionView
      reads this
    {
      SessionView(user, expires, accessToken)
    }

    constructor (v: SessionView)
      ensures View() == v
    {
      user, expires, accessToken := v.user, v.expires, v.accessToken;
    }
  }

  /** The `session` callback: it replaces the session's user with one built
      from the token, copies the access token, and returns the same session. */
  method SessionCallback(session: Session, token: Token) returns (r: Session)
    modifies session
    ensures r == session
    ensures session.View() == SessionUpdate(old(session.View()), token.View())
  {
    session.user := Some(SessionUser(token.id, Coalesce(token.name, ""), Coalesce(token.email, ""),
                                     token.image, token.userType, token.status));
    session.accessToken := token.accessToken;
    r := session;
  }

  /** After a sign-in the token holds exactly the signed-in user's fields,
      whatever an earlier sign-in had left in it. */
  lemma {:induction false} LatestSignInWins(t: TokenView, first: User, second: User)
    ensures JwtUpdate(JwtUpdate(t, Some(first)), Some(second)) == JwtUpdate(t, Some(second))
  {
  }

  /** A sign-in followed by any number of ordinary requests (callbacks with
      no user) leaves the token as the sign-in wrote it. */
  lemma {:induction false} LaterRequestsKeepToken(t: TokenView, u: User, n: nat)
    ensures Repeat(JwtUpdate(t, Some(u)), n) == JwtUpdate(t, Some(u))
  {
    if n > 0 { LaterRequestsKeepToken(t, u, n - 1); }
  }

  /** The token after `n` requests that carry no sign-in. */
  function Repeat(t: TokenView, n: nat): TokenView {
    if n == 0 then t else JwtUpdate(Repeat(t, n - 1), None)
  }

  /** End to end: a login the backend accepts yields a session whose user is
      the backend's user (id rendered in decimal, avatar as image) and whose
      access token is the one the backend issued. */
  lemma {:induction false} SignInReachesSession(
    credentials: Option<Credentials>, data: AuthData, t: TokenView, s: SessionView)
    requires HasCredentials(credentials)
    ensures var r := Authorize(credentials, Responded(LoginSucceeded(data)));
      && r.Authorized?
      && var view := SessionUpdate(s, JwtUpdate(t, Some(r.user)));
      && view.accessToken == Some(data.token)
      && view.user.value.id == Some(Decimal.IntToString(data.user.id))
      && Decimal.ParseInt(view.user.value.id.value) == Some(data.user.id)
      && view.user.value.name == data.user.name
      && view.user.value.email == data.user.email
      && view.user.value.image == data.user.avatar
      && view.user.value.userType == Some(data.user.userType)
      && view.user.value.status == Some(data.user.status)
  {
  }
}
