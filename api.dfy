/**
  The client's API service: response handling, request headers, the calls of `authAPI`
  and the session held in the browser's key-value storage (`localStorage`).

  The storage is a `map<string, string>`; `getItem` on an absent key is `None`.
  A JSON field the code tests for truthiness is a `string` in which "" stands for
  missing, `null` or empty alike.
*/
module Api {
  import opened Wrappers

  const TokenKey := "token"
  const UserKey := "user"
  const ApiRequestFailed := "API request failed"
  const LoginFailed := "Login failed"
  const AdminRole := "admin"

  type Storage = map<string, string>

  /** The names of the members the `authAPI` object defines. */
  const Members: set<string> := {
    "register", "login", "logout", "getProfile", "isAuthenticated", "getCurrentUser", "isAdmin",
    "sendResetOTP", "verifyResetOTP", "resetPassword", "verifyEmail", "resendVerification",
    "sendRegistrationOTP"}

  /** The user record the server returns with a token. */
  datatype User = User(id: string, name: string, email: string, role: string)

  /** The JSON body of a response, reduced to the fields the client reads. */
  datatype Body = Body(message: string, token: string, user: User)

  /** What `fetch` resolves to: the `ok` flag and the parsed body. */
  datatype Response = Response(ok: bool, body: Body)

  /**
    A request either yields a response whose body parses, or it rejects: `fetch` itself
    rejects, or `response.json()` does on a body that is not JSON.
  */
  datatype Transport = NetworkError(message: string) | Delivered(response: Response)

  /** `JSON.stringify` and `JSON.parse` restricted to user records; parse fails with `None`. */
  datatype Codec = Codec(stringify: User -> string, parse: string -> Option<User>)

  /** The codec behaves like JSON on objects: it never writes "" and gives back every record it wrote. */
  ghost predicate RoundTrips(codec: Codec)
  {
    forall u: User :: codec.stringify(u) != "" && codec.parse(codec.stringify(u)) == Some(u)
  }

  /** `localStorage.getItem(key)`. */
  function GetItem(store: Storage, key: string): Option<string>
  {
    if key in store then Some(store[key]) else None
  }

  /** JavaScript truthiness of a stored string: present and non-empty. */
  predicate Truthy(v: Option<string>)
  {
    v.Some? && v.value != ""
  }

  /** `handleResponse`: a non-ok response becomes an error with the server's message or a fallback. */
  function HandleResponse(response: Response): (r: Result<Body, string>)
    ensures r.Ok? <==> response.ok
    ensures r.Ok? ==> r.value == response.body
    ensures r.Err? ==> r.error != ""
    ensures r.Err? && response.body.message != "" ==> r.error == response.body.message
    ensures r.Err? && response.body.message == "" ==> r.error == ApiRequestFailed
  {
    if !response.ok then
      Err(if response.body.message != "" then response.body.message else ApiRequestFailed)
    else
      Ok(response.body)
  }

  /** Awaiting `fetch` and then `handleResponse`: a network rejection propagates unchanged. */
  function Await(reply: Transport): (r: Result<Body, string>)
    ensures r.Ok? <==> reply.Delivered? && reply.response.ok
    ensures reply.NetworkError? ==> r == Err(reply.message)
    ensures reply.Delivered? ==> r == HandleResponse(reply.response)
  {
    match reply
    case NetworkError(m) => Err(m)
    case Delivered(response) => HandleResponse(response)
  }

  /** `isAuthenticated`: the stored token is truthy. */
  predicate IsAuthenticated(store: Storage)
    ensures IsAuthenticated(store) <==> TokenKey in store && store[TokenKey] != ""
  {
    Truthy(GetItem(store, TokenKey))
  }

  /** `getHeaders`: JSON content type always, a bearer credential exactly when a token is stored. */
  function Headers(store: Storage): (h: map<string, string>)
    ensures "Content-Type" in h && h["Content-Type"] == "application/json"
    ensures "Authorization" in h <==> IsAuthenticated(store)
    ensures "Authorization" in h ==> h["Authorization"] == "Bearer " + store[TokenKey]
    ensures h.Keys <= {"Content-Type", "Authorization"}
  {
    var base := map["Content-Type" := "application/json"];
    if Truthy(GetItem(store, TokenKey)) then base["Authorization" := "Bearer " + store[TokenKey]]
    else base
  }

  /** What `getCurrentUser` gives: `null`, the parsed record, or the exception `JSON.parse` throws. */
  datatype CurrentUser = NoUser | Parsed(user: User) | ParseError

  /** `getCurrentUser`: `null` exactly when no truthy `user` string is stored. */
  function GetCurrentUser(store: Storage, parse: string -> Option<User>): (r: CurrentUser)
    ensures r.NoUser? <==> !Truthy(GetItem(store, UserKey))
    ensures r.Parsed? ==> parse(store[UserKey]) == Some(r.user)
    ensures r.ParseError? ==> UserKey in store && parse(store[UserKey]).None?
  {
    var userStr := GetItem(store, UserKey);
    if !Truthy(userStr) then NoUser
    else match parse(userStr.value)
      case Some(u) => Parsed(u)
      case None => ParseError
  }

  /** `isAdmin`: the stored user parses and has role "admin"; a missing key or a parse failure gives false. */
  function IsAdmin(store: Storage, parse: string -> Option<User>): (r: bool)
    ensures r <==> GetCurrentUser(store, parse).Parsed? && GetCurrentUser(store, parse).user.role == AdminRole
  {
    var userStr := GetItem(store, UserKey);
    if !Truthy(userStr) then false
    else match parse(userStr.value)
      case None => false
      case Some(u) => u.role == AdminRole
  }

  /** The `if (data.token)` block of `register` and `login`: store the token and the serialized user. */
  function WithSession(store: Storage, stringify: User -> string, data: Body): (s: Storage)
    ensures data.token != "" ==> IsAuthenticated(s) && s[TokenKey] == data.token
    ensures data.token != "" ==> UserKey in s && s[UserKey] == stringify(data.user)
    ensures data.token == "" ==> s == store
    ensures forall k | k != TokenKey && k != UserKey :: GetItem(s, k) == GetItem(store, k)
  {
    if data.token != "" then store[TokenKey := data.token][UserKey := stringify(data.user)]
    else store
  }

  /** `logout`: remove both keys. */
  function WithoutSession(store: Storage): (s: Storage)
    ensures TokenKey !in s && UserKey !in s
    ensures forall k | k != TokenKey && k != UserKey :: GetItem(s, k) == GetItem(store, k)
  {
    store - {TokenKey, UserKey}
  }

  /** The result `login` resolves or rejects with: every failure is re-raised with its message or "Login failed". */
  function LoginOutcome(reply: Transport): (r: Result<Body, string>)
    ensures r.Ok? <==> Await(reply).Ok?
    ensures r.Ok? ==> r == Await(reply)
    ensures r.Err? ==> r.error != ""
    ensures r.Err? && Await(reply).error != "" ==> r.error == Await(reply).error
    ensures r.Err? && Await(reply).error == "" ==> r.error == LoginFailed
  {
    match Await(reply)
    case Ok(data) => Ok(data)
    case Err(m) => Err(if m != "" then m else LoginFailed)
  }

  /** The calls `authAPI` makes, with their arguments; `register`'s `otp` is optional. */
  datatype Call =
    | RegisterCall(name: string, email: string, password: string, givenOtp: Option<string>)
    | LoginCall(email: string, password: string)
    | ProfileCall
    | SendResetOtpCall(email: string)
    | VerifyResetOtpCall(email: string, otp: string)
    | ResetPasswordCall(email: string, newPassword: string)
    | VerifyEmailCall(token: string)
    | ResendVerificationCall(email: string)
    | SendRegistrationOtpCall(email: string)

  /** An HTTP request: method (`verb`), path below the configured base URL, headers and JSON body (as a flat object). */
  datatype HttpRequest = HttpRequest(verb: string, path: string, headers: map<string, string>, body: Option<map<string, string>>)

  /** The request each `authAPI` call sends; every call carries `getHeaders()`, and only the GETs carry no body. */
  function RequestOf(store: Storage, call: Call): (r: HttpRequest)
    ensures r.headers == Headers(store)
    ensures r.body.None? <==> r.verb == "GET"
    ensures r.body.None? <==> call.ProfileCall? || call.VerifyEmailCall?
    ensures |r.path| > 10 && r.path[..10] == "/api/auth/"
  {
    var h := Headers(store);
    match call
    case RegisterCall(name, email, password, otp) =>
      var fields := map["name" := name, "email" := email, "password" := password];
      HttpRequest("POST", "/api/auth/register", h, Some(if otp.Some? then fields["otp" := otp.value] else fields))
    case LoginCall(email, password) =>
      HttpRequest("POST", "/api/auth/login", h, Some(map["email" := email, "password" := password]))
    case ProfileCall =>
      HttpRequest("GET", "/api/auth/profile", h, None)
    case SendResetOtpCall(email) =>
      HttpRequest("POST", "/api/auth/forgot-password", h, Some(map["email" := email]))
    case VerifyResetOtpCall(email, otp) =>
      HttpRequest("POST", "/api/auth/verify-reset-otp", h, Some(map["email" := email, "otp" := otp]))
    case ResetPasswordCall(email, newPassword) =>
      HttpRequest("POST", "/api/auth/reset-password", h, Some(map["email" := email, "newPassword" := newPassword]))
    case VerifyEmailCall(token) =>
      HttpRequest("GET", "/api/auth/verify-email/" + token, h, None)
    case ResendVerificationCall(email) =>
      HttpRequest("POST", "/api/auth/resend-verification", h, Some(map["email" := email]))
    case SendRegistrationOtpCall(email) =>
      HttpRequest("POST", "/api/auth/send-registration-otp", h, Some(map["email" := email]))
  }

  /** `resetPassword(email, newPassword)` sends its first argument as the `email` field. */
  lemma ResetPasswordBody(store: Storage, first: string, newPassword: string)
    ensures RequestOf(store, ResetPasswordCall(first, newPassword)).body
      == Some(map["email" := first, "newPassword" := newPassword])
    ensures RequestOf(store, ResetPasswordCall(first, newPassword)).path == "/api/auth/reset-password"
  {
  }

  /** `JSON.stringify(userData)` sends `otp` exactly when it is given, beside the three account fields. */
  lemma RegisterBody(store: Storage, name: string, email: string, password: string, otp: Option<string>)
    ensures var b := RequestOf(store, RegisterCall(name, email, password, otp)).body;
      b.Some? && b.value.Keys == {"name", "email", "password"} + (if otp.Some? then {"otp"} else {})
    ensures var b := RequestOf(store, RegisterCall(name, email, password, otp)).body.value;
      b["name"] == name && b["email"] == email && b["password"] == password
    ensures var b := RequestOf(store, RegisterCall(name, email, password, otp)).body.value;
      otp.Some? ==> b["otp"] == otp.value
  {
  }

  /** After a login or registration that returned a token, the session reads back what the server sent. */
  lemma SessionEstablished(store: Storage, codec: Codec, data: Body)
    requires RoundTrips(codec)
    requires data.token != ""
    ensures IsAuthenticated(WithSession(store, codec.stringify, data))
    ensures GetCurrentUser(WithSession(store, codec.stringify, data), codec.parse) == Parsed(data.user)
    ensures IsAdmin(WithSession(store, codec.stringify, data), codec.parse) <==> data.user.role == AdminRole
    ensures Headers(WithSession(store, codec.stringify, data))["Authorization"] == "Bearer " + data.token
  {
    assert codec.stringify(data.user) != "" && codec.parse(codec.stringify(data.user)) == Some(data.user);
  }

  /** After `logout`, nobody is signed in, nobody is admin, and no user is current. */
  lemma SessionEnded(store: Storage, parse: string -> Option<User>)
    ensures !IsAuthenticated(WithoutSession(store))
    ensures !IsAdmin(WithoutSession(store), parse)
    ensures GetCurrentUser(WithoutSession(store), parse) == NoUser
    ensures "Authorization" !in Headers(WithoutSession(store))
  {
  }

  /**
    The browser storage as the session holder sees it. `login`, `register` and `logout`
    update it in place; the reads above are functions of `items`.
  */
  class SessionStore {
    var items: Storage
    const codec: Codec

    constructor (initial: Storage, codec: Codec)
      ensures items == initial && this.codec == codec
    {
      items := initial;
      this.codec := codec;
    }

    /** `authAPI.register`: send the user data; on a resolved response with a token, persist the session. */
    method Register(name: string, email: string, password: string, otp: Option<string>, reply: Transport)
      returns (sent: HttpRequest, r: Result<Body, string>)
      modifies this
      ensures sent == RequestOf(old(items), RegisterCall(name, email, password, otp))
      ensures r == Await(reply)
      ensures r.Ok? ==> items == WithSession(old(items), codec.stringify, r.value)
      ensures r.Err? ==> items == old(items)
    {
      sent := RequestOf(items, RegisterCall(name, email, password, otp));
      r := Await(reply);
      if r.Ok? && r.value.token != "" {
        items := items[TokenKey := r.value.token];
        items := items[UserKey := codec.stringify(r.value.user)];
      }
    }

    /** `authAPI.login`: like `register`, but every failure is re-raised with its message or "Login failed". */
    method Login(email: string, password: string, reply: Transport)
      returns (sent: HttpRequest, r: Result<Body, string>)
      modifies this
      ensures sent == RequestOf(old(items), LoginCall(email, password))
      ensures r == LoginOutcome(reply)
      ensures r.Ok? ==> items == WithSession(old(items), codec.stringify, r.value)
      ensures r.Err? ==> items == old(items)
    {
      sent := RequestOf(items, LoginCall(email, password));
      var data := Await(reply);
      match data {
        case Err(m) =>
          r := Err(if m != "" then m else LoginFailed);
        case Ok(body) =>
          if body.token != "" {
            items := items[TokenKey := body.token];
            items := items[UserKey := codec.stringify(body.user)];
          }
          r := Ok(body);
      }
    }

    /** `authAPI.logout`: remove the token and the user, and nothing else. */
    method Logout()
      modifies this
      ensures items == WithoutSession(old(items))
    {
      items := items - {TokenKey};
      items := items - {UserKey};
    }
  }
}
