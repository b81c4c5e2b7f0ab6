/**
 * The authentication context: the two pieces of state every page reads
 * (`isAuthenticated` and `user`), kept in step with the session store.
 */
module AuthContext {
  import opened Wrappers
  import Json
  import opened Http
  import opened AuthService
  import Storage

  /** `GET /auth/validate-token` with the given bearer token. */
  function ValidateRequest(token: Option<string>): Request {
    Request(Get, ApiUrl + "/auth/validate-token", token)
  }

  class AuthProvider {
    var isAuthenticated: bool
    var user: Option<Json.Object>
    const storage: Storage.LocalStorage

    /** Both fields start from the store (lines 30-31) and are read again on mount (lines 36-37). */
    constructor (storage: Storage.LocalStorage)
      ensures this.storage == storage
      ensures isAuthenticated == IsAuthenticated(storage.items)
      ensures user == GetUserFromStorage(storage.items)
    {
      this.storage := storage;
      isAuthenticated := IsAuthenticated(storage.items);
      user := GetUserFromStorage(storage.items);
    }

    /** The fields agree with the store as `handleStorageChange` derives them. */
    predicate InStepWithStore()
      reads this, storage
    {
      isAuthenticated == IsAuthenticated(storage.items) &&
      user == (if isAuthenticated then GetUserFromStorage(storage.items) else None)
    }

    /** `handleStorageChange`: another tab changed the store; both fields are derived anew, and there is no user without a session. */
    method HandleStorageChange()
      modifies this
      ensures InStepWithStore()
      ensures !isAuthenticated ==> user.None?
      ensures isAuthenticated ==> user == GetUserFromStorage(storage.items)
    {
      var isAuth := IsAuthenticated(storage.items);
      isAuthenticated := isAuth;
      user := if isAuth then GetUserFromStorage(storage.items) else None;
    }

    /** `logout`: the session entries go, both fields are reset, and the browser is sent to the login page. */
    method Logout() returns (request: Request, navigateTo: string)
      modifies this, storage
      ensures storage.items == ClearSession(old(storage.items))
      ensures !isAuthenticated && user.None?
      ensures InStepWithStore()
      ensures request == LogoutRequest && navigateTo == LoginPath
    {
      request := AuthService.Logout(storage);
      ClearSessionProperties(old(storage.items));
      isAuthenticated := false;
      user := None;
      navigateTo := LoginPath;
    }

    /**
     * `checkTokenExpiration`: with no token the fields are reset and no
     * request is made; a 401 from the validation call logs out; anything else,
     * a network failure included, keeps the session and returns true.
     */
    method CheckTokenExpiration<D>(outcome: Fetch<D>) returns (valid: bool, requests: seq<Request>, navigateTo: Option<string>)
      modifies this, storage
      ensures !AuthService.IsAuthenticated(old(storage.items)) ==>
        !valid && requests == [] && navigateTo.None? && !isAuthenticated && user.None? &&
        storage.items == old(storage.items)
      ensures AuthService.IsAuthenticated(old(storage.items)) && IsUnauthorized(outcome) ==>
        !valid && requests == [ValidateRequest(GetAuthToken(old(storage.items))), LogoutRequest] &&
        navigateTo == Some(LoginPath) && !isAuthenticated && user.None? &&
        storage.items == ClearSession(old(storage.items))
      ensures AuthService.IsAuthenticated(old(storage.items)) && !IsUnauthorized(outcome) ==>
        valid && requests == [ValidateRequest(GetAuthToken(old(storage.items)))] && navigateTo.None? &&
        isAuthenticated == old(isAuthenticated) && user == old(user) && storage.items == old(storage.items)
      ensures valid <==> AuthService.IsAuthenticated(old(storage.items)) && !IsUnauthorized(outcome)
    {
      var token := GetAuthToken(storage.items);
      if !Truthy(token) {
        isAuthenticated := false;
        user := None;
        return false, [], None;
      }
      var validate := ValidateRequest(token);
      if outcome.Received? && !IsOk(outcome.response.status) && outcome.response.status == 401 {
        var beacon, path := Logout();
        return false, [validate, beacon], Some(path);
      }
      return true, [validate], None;
    }
  }
}
