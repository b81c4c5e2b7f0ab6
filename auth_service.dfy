/**
 * The authentication service: the session kept in `localStorage`
 * (`user_info`, `access_token`, `refresh_token`), login and logout, and the
 * authenticated request helper shared by the profile page.
 */
module AuthService {
  import opened Wrappers
  import Text
  import Json
  import opened Http
  import Storage

  const UserInfoKey: string := "user_info"
  const AccessTokenKey: string := "access_token"
  const RefreshTokenKey: string := "refresh_token"

  const LoginFailedMessage: string := "Tài khoản hoặc mật khẩu không đúng."
  const MissingTokenMessage: string := "Không tìm thấy token xác thực. Vui lòng đăng nhập lại."
  const SessionExpiredMessage: string := "Phiên đăng nhập đã hết hạn. Vui lòng đăng nhập lại."
  const LoginPath: string := "/login"

  datatype Authentication = Authentication(token: string, tokenType: string, id: string, name: string, email: string, role: string)

  /** The body of a successful `POST /auth/login`. */
  datatype LoginResponse = LoginResponse(expiresIn: int, tokenType: string, message: string, authentication: Authentication, refreshToken: string)

  /** The record stored under `user_info`, in the order its properties are written. */
  function UserInfoRecord(a: Authentication): Json.Object {
    [("id", a.id), ("name", a.name), ("email", a.email), ("role", a.role), ("token", a.token)]
  }

  /** The stored record names each of its five properties once, and its `token` and `name` are the login's. */
  lemma UserInfoRecordShape(a: Authentication)
    ensures Json.DistinctKeys(UserInfoRecord(a))
    ensures Json.Get(UserInfoRecord(a), "token") == Some(a.token)
    ensures Json.Get(UserInfoRecord(a), "name") == Some(a.name)
  {
    var o := UserInfoRecord(a);
    var t1, t2, t3, t4 := o[1..], o[2..], o[3..], o[4..];
    assert t1[1..] == t2 && t2[1..] == t3 && t3[1..] == t4 && t4[1..] == [];
    assert !Json.HasKey(t4, "id") && !Json.HasKey(t4, "name") && !Json.HasKey(t4, "email") && !Json.HasKey(t4, "role");
    assert !Json.HasKey(t3, "id") && !Json.HasKey(t3, "name") && !Json.HasKey(t3, "email");
    assert !Json.HasKey(t2, "id") && !Json.HasKey(t2, "name");
    assert !Json.HasKey(t1, "id");
    assert Json.DistinctKeys(t4) && Json.DistinctKeys(t3) && Json.DistinctKeys(t2) && Json.DistinctKeys(t1);
    assert Json.Get(t4, "token") == Some(a.token);
    assert Json.Get(t3, "token") == Some(a.token);
    assert Json.Get(t2, "token") == Some(a.token);
    assert Json.Get(t1, "token") == Some(a.token);
  }

  /** The three entries the session consists of. */
  function SessionKeys(): set<string> {
    {UserInfoKey, AccessTokenKey, RefreshTokenKey}
  }

  /**
   * `getUserFromStorage`: the parsed `user_info` entry; nothing when the entry
   * is missing, empty or not a JSON object.
   */
  function GetUserFromStorage(items: map<string, string>): (r: Option<Json.Object>)
    ensures UserInfoKey !in items ==> r.None?
    ensures UserInfoKey in items ==> r == Json.Parse(items[UserInfoKey])
    ensures r.Some? ==> Json.DistinctKeys(r.value)
  {
    if UserInfoKey in items && items[UserInfoKey] != "" then
      Json.ParseDistinct(items[UserInfoKey]);
      Json.Parse(items[UserInfoKey])
    else
      None
  }

  /** The `token` property of the stored user record, when it is a non-empty string. */
  function StoredUserToken(items: map<string, string>): Option<string> {
    var user := GetUserFromStorage(items);
    if user.Some? && Truthy(Json.Get(user.value, "token")) then Json.Get(user.value, "token") else None
  }

  /**
   * `getAuthToken`: the stored user's token when it is non-empty, otherwise
   * whatever `access_token` holds (possibly nothing, possibly "").
   */
  function GetAuthToken(items: map<string, string>): (r: Option<string>)
    ensures StoredUserToken(items).Some? ==> r == StoredUserToken(items) && r.value != ""
    ensures StoredUserToken(items).None? ==> r == Storage.GetItem(items, AccessTokenKey)
    ensures UserInfoKey !in items ==> r == Storage.GetItem(items, AccessTokenKey)
    ensures r.None? ==> AccessTokenKey !in items
  {
    var user := GetUserFromStorage(items);
    if user.Some? && Truthy(Json.Get(user.value, "token")) then Json.Get(user.value, "token")
    else Storage.GetItem(items, AccessTokenKey)
  }

  /** `isAuthenticated`: `!!getAuthToken()`, so an empty token counts as no token. */
  predicate IsAuthenticated(items: map<string, string>) {
    Truthy(GetAuthToken(items))
  }

  /** Authentication in terms of the stored entries: a non-empty user token, or a non-empty `access_token`. */
  lemma IsAuthenticatedIff(items: map<string, string>)
    ensures IsAuthenticated(items) <==>
      StoredUserToken(items).Some? || (AccessTokenKey in items && items[AccessTokenKey] != "")
  {
  }

  /** An empty access token with no usable user record is no session. */
  lemma EmptyTokenIsUnauthenticated(items: map<string, string>)
    requires StoredUserToken(items).None?
    requires AccessTokenKey in items ==> items[AccessTokenKey] == ""
    ensures !IsAuthenticated(items)
  {
  }

  /** What a successful login leaves in the store (lines 51-63). */
  function SessionWritten(items: map<string, string>, data: LoginResponse): map<string, string> {
    var a := data.authentication;
    var m := items[UserInfoKey := Json.Serialize(UserInfoRecord(a))][AccessTokenKey := a.token];
    if data.refreshToken != "" then m[RefreshTokenKey := data.refreshToken] else m
  }

  /** What logout leaves in the store: the three session entries removed. */
  function ClearSession(items: map<string, string>): map<string, string> {
    items - SessionKeys()
  }

  /**
   * After login, reading the store back gives the user record that was
   * written, the login token, and authentication exactly when that token is
   * non-empty; the refresh token is written only when non-empty, and no other
   * entry changes.
   */
  lemma SessionWrittenReadsBack(items: map<string, string>, data: LoginResponse)
    ensures GetUserFromStorage(SessionWritten(items, data)) == Some(UserInfoRecord(data.authentication))
    ensures GetAuthToken(SessionWritten(items, data)) == Some(data.authentication.token)
    ensures IsAuthenticated(SessionWritten(items, data)) <==> data.authentication.token != ""
    ensures data.refreshToken != "" ==> Storage.GetItem(SessionWritten(items, data), RefreshTokenKey) == Some(data.refreshToken)
    ensures data.refreshToken == "" ==> Storage.GetItem(SessionWritten(items, data), RefreshTokenKey) == Storage.GetItem(items, RefreshTokenKey)
    ensures forall k :: k !in SessionKeys() ==> Storage.GetItem(SessionWritten(items, data), k) == Storage.GetItem(items, k)
  {
    var a := data.authentication;
    var after := SessionWritten(items, data);
    var record := UserInfoRecord(a);
    UserInfoRecordShape(a);
    Json.SerializeRoundTrip(record);
    assert after[UserInfoKey] == Json.Serialize(record);
    assert Json.Serialize(record) != "";
    assert GetUserFromStorage(after) == Some(record);
    if a.token != "" {
      assert StoredUserToken(after) == Some(a.token);
    } else {
      assert StoredUserToken(after) == None;
      assert after[AccessTokenKey] == a.token;
    }
  }

  /** After logout nothing of the session remains, clearing twice is clearing once, and every other entry is kept. */
  lemma ClearSessionProperties(items: map<string, string>)
    ensures !IsAuthenticated(ClearSession(items))
    ensures GetUserFromStorage(ClearSession(items)).None?
    ensures GetAuthToken(ClearSession(items)).None?
    ensures ClearSession(ClearSession(items)) == ClearSession(items)
    ensures forall k :: k in SessionKeys() ==> k !in ClearSession(items)
    ensures forall k :: k !in SessionKeys() ==> Storage.GetItem(ClearSession(items), k) == Storage.GetItem(items, k)
  {
  }

  /** Logging in after a logout reads back as the new session, whatever the old one held. */
  lemma LoginAfterLogout(items: map<string, string>, data: LoginResponse)
    ensures GetAuthToken(SessionWritten(ClearSession(items), data)) == Some(data.authentication.token)
    ensures data.refreshToken == "" ==> RefreshTokenKey !in SessionWritten(ClearSession(items), data)
  {
    SessionWrittenReadsBack(ClearSession(items), data);
  }

  /** The request URL: `API_URL + url` when `url` starts with '/', else `API_URL + '/' + url`. */
  function ApiUrlFor(url: string): (r: string)
    ensures r == ApiUrl + "/" + (if Text.StartsWith(url, "/") then url[1..] else url)
    ensures Text.StartsWith(r, ApiUrl + "/")
  {
    if Text.StartsWith(url, "/") then
      assert url == "/" + url[1..];
      ApiUrl + url
    else
      ApiUrl + "/" + url
  }

  /** A path with and without its leading '/' reaches the same URL. */
  lemma ApiUrlForLeadingSlash(path: string)
    ensures ApiUrlFor("/" + path) == ApiUrlFor(path) || Text.StartsWith(path, "/")
  {
    assert ("/" + path)[1..] == path;
  }

  /** The login call's data: a 2xx response whose body parsed. */
  function LoginData(outcome: Fetch<LoginResponse>): Option<LoginResponse> {
    if outcome.Received? && IsOk(outcome.response.status) && outcome.response.body.Json? then
      Some(outcome.response.body.data)
    else None
  }

  const LoginRequest: Request := Request(Post, ApiUrl + "/auth/login", None)
  const LogoutRequest: Request := Request(Post, ApiUrl + "/auth/logout", None)

  /**
   * `login`: every failure (network, non-2xx, unparseable body) surfaces as
   * the one generic message and leaves the store alone; a success writes the
   * session and returns the response.
   */
  method Login(storage: Storage.LocalStorage, outcome: Fetch<LoginResponse>) returns (r: Result<LoginResponse>, request: Request)
    modifies storage
    ensures request == LoginRequest
    ensures LoginData(outcome).None? ==> r == Err(LoginFailedMessage) && storage.items == old(storage.items)
    ensures LoginData(outcome).Some? ==> r == Ok(LoginData(outcome).value)
    ensures LoginData(outcome).Some? ==> storage.items == SessionWritten(old(storage.items), r.value)
  {
    request := LoginRequest;
    if outcome.NetworkFailure? || !IsOk(outcome.response.status) || outcome.response.body.Unparseable? {
      return Err(LoginFailedMessage), request;
    }
    var data := outcome.response.body.data;
    var a := data.authentication;
    storage.SetItem(UserInfoKey, Json.Serialize(UserInfoRecord(a)));
    storage.SetItem(AccessTokenKey, a.token);
    if data.refreshToken != "" {
      storage.SetItem(RefreshTokenKey, data.refreshToken);
    }
    r := Ok(data);
  }

  /** `logout`: the server call is fire-and-forget; the store loses the three session entries. */
  method Logout(storage: Storage.LocalStorage) returns (request: Request)
    modifies storage
    ensures request == LogoutRequest
    ensures storage.items == ClearSession(old(storage.items))
  {
    request := LogoutRequest;
    storage.RemoveItem(UserInfoKey);
    storage.RemoveItem(AccessTokenKey);
    storage.RemoveItem(RefreshTokenKey);
  }

  /**
   * What `apiRequest` does for a given store and fetch outcome: the requests
   * it issues, what it returns or throws, and whether it redirects.
   */
  function ApiCall<D>(items: map<string, string>, url: string, verb: Method, outcome: Fetch<D>): (call: Call<D>)
    ensures !IsAuthenticated(items) ==> call == Call([], Err(MissingTokenMessage), false)
    ensures IsAuthenticated(items) ==>
      |call.requests| >= 1 && call.requests[0] == Request(verb, ApiUrlFor(url), GetAuthToken(items))
    ensures IsAuthenticated(items) && IsUnauthorized(outcome) ==>
      call.requests[1..] == [LogoutRequest] && call.result == Err(SessionExpiredMessage) && call.redirectToLogin
    ensures IsAuthenticated(items) && !IsUnauthorized(outcome) ==> |call.requests| == 1 && !call.redirectToLogin
    ensures IsAuthenticated(items) && outcome.NetworkFailure? ==> call.result == Err(outcome.message)
    ensures IsAuthenticated(items) && outcome.Received? && !IsOk(outcome.response.status) && !IsUnauthorized(outcome) ==>
      call.result == Err(FailureMessage(outcome.response, true))
    ensures IsAuthenticated(items) && outcome.Received? && IsOk(outcome.response.status) ==>
      call.result == ReadData(outcome.response.body)
    ensures call.result.Ok? <==> IsAuthenticated(items) && outcome.Received? && IsOk(outcome.response.status) && outcome.response.body.Json?
  {
    var token := GetAuthToken(items);
    if !Truthy(token) then Call([], Err(MissingTokenMessage), false)
    else
      var request := Request(verb, ApiUrlFor(url), token);
      match outcome
      case NetworkFailure(message) => Call([request], Err(message), false)
      case Received(response) =>
        if IsOk(response.status) then Call([request], ReadData(response.body), false)
        else if response.status == 401 then Call([request, LogoutRequest], Err(SessionExpiredMessage), true)
        else Call([request], Err(FailureMessage(response, true)), false)
  }

  /** The store after `apiRequest`: a 401 answer to a signed-in request logs out; anything else leaves it alone. */
  function ApiStore<D>(items: map<string, string>, outcome: Fetch<D>): (after: map<string, string>)
    ensures IsAuthenticated(items) && IsUnauthorized(outcome) ==> after == ClearSession(items) && !IsAuthenticated(after)
    ensures !IsAuthenticated(items) ==> after == items
    ensures forall k :: k !in SessionKeys() ==> Storage.GetItem(after, k) == Storage.GetItem(items, k)
    ensures !IsUnauthorized(outcome) ==> after == items
  {
    ClearSessionProperties(items);
    if IsAuthenticated(items) && IsUnauthorized(outcome) then ClearSession(items) else items
  }

  /**
   * `apiRequest`: without a token nothing is sent; otherwise one request with
   * the bearer token. A 401 logs out and redirects; another failure throws the
   * body's message or the status line; a success returns the parsed body.
   */
  method ApiRequest<D>(storage: Storage.LocalStorage, url: string, verb: Method, outcome: Fetch<D>) returns (call: Call<D>)
    modifies storage
    ensures !IsAuthenticated(old(storage.items)) ==>
      call == Call([], Err(MissingTokenMessage), false) && storage.items == old(storage.items)
    ensures IsAuthenticated(old(storage.items)) ==>
      |call.requests| >= 1 && call.requests[0] == Request(verb, ApiUrlFor(url), GetAuthToken(old(storage.items)))
    ensures IsAuthenticated(old(storage.items)) && IsUnauthorized(outcome) ==>
      call.requests[1..] == [LogoutRequest] && call.result == Err(SessionExpiredMessage) && call.redirectToLogin &&
      storage.items == ClearSession(old(storage.items))
    ensures IsAuthenticated(old(storage.items)) && !IsUnauthorized(outcome) ==>
      |call.requests| == 1 && !call.redirectToLogin && storage.items == old(storage.items)
    ensures IsAuthenticated(old(storage.items)) && outcome.NetworkFailure? ==> call.result == Err(outcome.message)
    ensures IsAuthenticated(old(storage.items)) && outcome.Received? && !IsOk(outcome.response.status) && !IsUnauthorized(outcome) ==>
      call.result == Err(FailureMessage(outcome.response, true))
    ensures IsAuthenticated(old(storage.items)) && outcome.Received? && IsOk(outcome.response.status) ==>
      call.result == ReadData(outcome.response.body)
    ensures call == ApiCall(old(storage.items), url, verb, outcome) && storage.items == ApiStore(old(storage.items), outcome)
  {
    var token := GetAuthToken(storage.items);
    if !Truthy(token) {
      return Call([], Err(MissingTokenMessage), false);
    }
    var request := Request(verb, ApiUrlFor(url), token);
    if outcome.NetworkFailure? {
      return Call([request], Err(outcome.message), false);
    }
    var response := outcome.response;
    if !IsOk(response.status) {
      if response.status == 401 {
        var beacon := Logout(storage);
        return Call([request, beacon], Err(SessionExpiredMessage), true);
      }
      return Call([request], Err(FailureMessage(response, true)), false);
    }
    call := Call([request], ReadData(response.body), false);
  }
}
