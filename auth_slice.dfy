/** The `auth` slice of the Redux store: the signed-in user, the token, the
    lower-cased role, and the loading and error flags. The slice starts from
    what the browser's storage holds and writes the token and the user back
    on log-in, log-out and profile updates; the storage is modelled as two
    fields of the store. A reducer that throws leaves the state as it was. */
module AuthSlice {
  import opened Text
  import opened Js

  /** `user?.role?.toLowerCase() || null` for the stored user: `None` when the role is present
      but not a string (`toLowerCase` is not a function and loading the slice throws). */
  function StoredRole(user: JsValue): (r: Option<JsValue>)
    ensures r.Some? ==> r.value.Null? || (r.value.Str? && r.value.s != "")
    ensures r.None? <==> !Nullish(OptGet(user, "role")) && !OptGet(user, "role").Str?
    ensures OptGet(user, "role").Str? && OptGet(user, "role").s != "" ==>
      r == Some(Str(ToLower(OptGet(user, "role").s)))
    ensures Nullish(OptGet(user, "role")) || OptGet(user, "role") == Str("") ==> r == Some(Null)
  {
    match OptGet(user, "role")
    case Undefined => Some(Null)
    case Null => Some(Null)
    case Str(s) => if s == "" then Some(Null) else Some(Str(ToLower(s)))
    case _ => None
  }

  /** `action.payload.user.role.toLowerCase()`: `None` when the payload, its user or the role is
      missing or the role is not a string. */
  function LoginRole(payload: JsValue): (r: Option<string>)
    ensures r.Some? <==>
      !Nullish(payload) && !Nullish(Member(payload, "user")) && Member(Member(payload, "user"), "role").Str?
    ensures r.Some? ==> r.value == ToLower(Member(Member(payload, "user"), "role").s)
  {
    if Nullish(payload) then None
    else
      var user := Member(payload, "user");
      if Nullish(user) then None
      else
        var role := Member(user, "role");
        if role.Str? then Some(ToLower(role.s)) else None
  }

  class AuthStore {
    var user: JsValue
    var token: JsValue
    var isAuthenticated: bool
    var loading: bool
    var error: JsValue
    var role: JsValue
    /** The browser storage: `localStorage.getItem('token')` and the parsed `'user'` entry. */
    var savedToken: Option<string>
    var savedUser: JsValue

    /** The initial state, read from storage, for a stored user whose role can be read;
        `LoadAuthStore` below is the load that also covers the throwing case. */
    constructor (storedUser: JsValue, storedToken: Option<string>)
      requires StoredRole(storedUser).Some?
      ensures user == Or(storedUser, Null)
      ensures isAuthenticated <==> storedToken.Some? && storedToken.value != ""
      ensures token == if isAuthenticated then Str(storedToken.value) else Null
      ensures role == StoredRole(storedUser).value
      ensures !loading && error == Null
      ensures savedToken == storedToken && savedUser == storedUser
    {
      user := Or(storedUser, Null);
      isAuthenticated := storedToken.Some? && storedToken.value != "";
      token := if storedToken.Some? && storedToken.value != "" then Str(storedToken.value) else Null;
      role := StoredRole(storedUser).value;
      loading := false;
      error := Null;
      savedToken := storedToken;
      savedUser := storedUser;
    }

    /** `loginStart`: loading on, error cleared, nothing else touched. */
    method LoginStart()
      modifies this`loading, this`error
      ensures loading && error == Null
    {
      loading := true;
      error := Null;
    }

    /** `loginSuccess`: signed in as the payload's user with its token and lower-cased role, and
        both written to storage. A payload without a string role throws and changes nothing. */
    method LoginSuccess(payload: JsValue) returns (threw: bool)
      modifies this
      ensures threw <==> LoginRole(payload).None?
      ensures threw ==> unchanged(this)
      ensures !threw ==>
        && !loading && isAuthenticated && error == Null
        && user == Member(payload, "user") && token == Member(payload, "token")
        && role == Str(LoginRole(payload).value)
        && savedToken == Some(TemplateText(token)) && savedUser == user
    {
      var newRole := LoginRole(payload);
      if newRole.None? {
        return true;
      }
      loading := false;
      isAuthenticated := true;
      user := Member(payload, "user");
      token := Member(payload, "token");
      role := Str(newRole.value);
      error := Null;
      savedToken := Some(TemplateText(token));
      savedUser := user;
      return false;
    }

    /** `loginFailure`: loading off, signed out, the payload as the error; the user, token and role
        of an earlier session stay in place. */
    method LoginFailure(payload: JsValue)
      modifies this`loading, this`isAuthenticated, this`error
      ensures !loading && !isAuthenticated && error == payload
    {
      loading := false;
      isAuthenticated := false;
      error := payload;
    }

    /** `logout`: user, token, role and error cleared, signed out, storage emptied; `loading` is
        not touched. */
    method Logout()
      modifies this`user, this`token, this`isAuthenticated, this`role, this`error, this`savedToken, this`savedUser
      ensures user == Null && token == Null && !isAuthenticated && role == Null && error == Null
      ensures savedToken.None? && savedUser == Null
    {
      user := Null;
      token := Null;
      isAuthenticated := false;
      role := Null;
      error := Null;
      savedToken := None;
      savedUser := Null;
    }

    /** `updateProfile`: `{ ...user, ...payload }`, stored back. Keys the payload does not name keep
        their values; the role field of the slice is not recomputed. */
    method UpdateProfile(payload: JsValue)
      modifies this`user, this`savedUser
      ensures user.Obj? && savedUser == user
      ensures forall k :: k in user.fields <==> k in Spread(old(user)) || k in Spread(payload)
      ensures forall k :: k in Spread(payload) ==> user.fields[k] == Spread(payload)[k]
      ensures forall k :: k in Spread(old(user)) && k !in Spread(payload) ==> user.fields[k] == Spread(old(user))[k]
    {
      user := Obj(Spread(user) + Spread(payload));
      savedUser := user;
    }
  }

  /** Loading the slice from storage: `null` when the stored user's role is present but not a
      string, where `toLowerCase` is not a function and the module throws; otherwise the
      initial state read from storage. */
  method LoadAuthStore(storedUser: JsValue, storedToken: Option<string>) returns (store: AuthStore?)
    ensures store == null <==> !Nullish(OptGet(storedUser, "role")) && !OptGet(storedUser, "role").Str?
    ensures store != null ==>
      && fresh(store)
      && store.user == Or(storedUser, Null)
      && (store.isAuthenticated <==> storedToken.Some? && storedToken.value != "")
      && store.role == StoredRole(storedUser).value
      && !store.loading && store.error == Null
  {
    if StoredRole(storedUser).None? {
      return null;
    }
    store := new AuthStore(storedUser, storedToken);
  }

  /** Reloading the app after a log-in restores the session: it is signed in exactly when the
      stored token text is not empty, and the role is the same when it is not empty. */
  method ReloadAfterLogin(store: AuthStore, payload: JsValue) returns (reloaded: AuthStore)
    requires LoginRole(payload).Some?
    modifies store
    ensures reloaded.isAuthenticated <==> TemplateText(Member(payload, "token")) != ""
    ensures store.role.Str? && store.role.s != "" ==> reloaded.role == store.role
    ensures Truthy(store.user) ==> reloaded.user == store.user
  {
    var threw := store.LoginSuccess(payload);
    var userRole := Member(store.user, "role");
    assert OptGet(store.savedUser, "role") == userRole;
    reloaded := new AuthStore(store.savedUser, store.savedToken);
  }

  /** After a log-out, a reload starts signed out with no user and no role. */
  method ReloadAfterLogout(store: AuthStore) returns (reloaded: AuthStore)
    modifies store
    ensures !reloaded.isAuthenticated && reloaded.user == Null && reloaded.role == Null && reloaded.token == Null
  {
    store.Logout();
    reloaded := new AuthStore(store.savedUser, store.savedToken);
  }

  /** A failed log-in after a successful one signs out but keeps the earlier user, token and role. */
  method FailureAfterSuccess(store: AuthStore, payload: JsValue, failure: JsValue)
    requires LoginRole(payload).Some?
    modifies store
    ensures !store.isAuthenticated && store.error == failure
    ensures store.user == Member(payload, "user") && store.role == Str(LoginRole(payload).value)
  {
    var threw := store.LoginSuccess(payload);
    store.LoginFailure(failure);
  }
}
