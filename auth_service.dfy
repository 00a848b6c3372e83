/**
 * The stored-session helpers of src/services/authService.ts: writing,
 * reading and clearing `auth_token` and `user`, and the stored-session
 * check. JSON.parse is the parameter `parse`; `None` stands for a throw.
 */
module AuthService {
  import opened Wrappers
  import opened Text
  import opened Storage
  import opened Users
  import Routing

  /** The argument of setAuthData; either part may be missing. */
  datatype AuthData = AuthData(token: Option<string>, user: Option<User>)

  /** What getAuthData returns when it does not throw. */
  datatype StoredAuth = StoredAuth(token: Option<string>, user: Option<User>)

  /** `if (data.token) localStorage.setItem("auth_token", data.token)` */
  function WithToken(items: map<string, string>, token: Option<string>): (r: map<string, string>)
    ensures forall k :: k != AuthTokenKey ==> Lookup(r, k) == Lookup(items, k)
    ensures Truthy(token) ==> Lookup(r, AuthTokenKey) == token
    ensures !Truthy(token) ==> r == items
  {
    if Truthy(token) then items[AuthTokenKey := token.value] else items
  }

  /** `if (data.user) localStorage.setItem("user", JSON.stringify(data.user))`, given the serialised user. */
  function WithUser(items: map<string, string>, json: Option<string>): (r: map<string, string>)
    ensures forall k :: k != UserKey ==> Lookup(r, k) == Lookup(items, k)
    ensures json.Some? ==> Lookup(r, UserKey) == json
    ensures json.None? ==> r == items
  {
    if json.Some? then items[UserKey := json.value] else items
  }

  /** Storage after setAuthData: each part written only when it is truthy, nothing else touched. */
  function WithAuthData(items: map<string, string>, data: AuthData): (r: map<string, string>)
    ensures forall k :: k != AuthTokenKey && k != UserKey ==> Lookup(r, k) == Lookup(items, k)
    ensures Truthy(data.token) ==> Lookup(r, AuthTokenKey) == data.token
    ensures !Truthy(data.token) ==> Lookup(r, AuthTokenKey) == Lookup(items, AuthTokenKey)
    ensures data.user.Some? ==> Lookup(r, UserKey) == Some(Stringify(data.user.value))
    ensures data.user.None? ==> Lookup(r, UserKey) == Lookup(items, UserKey)
  {
    assert AuthTokenKey != UserKey by { assert AuthTokenKey[0] != UserKey[0]; }
    var json := if data.user.Some? then Some(Stringify(data.user.value)) else None;
    WithUser(WithToken(items, data.token), json)
  }

  /** Storage after clearAuthData: exactly the two session keys are gone. */
  function WithoutAuthData(items: map<string, string>): (r: map<string, string>)
    ensures r.Keys == items.Keys - {AuthTokenKey, UserKey}
    ensures forall k :: k in r ==> r[k] == items[k]
  {
    items - {AuthTokenKey, UserKey}
  }

  method SetAuthData(storage: LocalStorage, data: AuthData)
    modifies storage
    ensures storage.items == WithAuthData(old(storage.items), data)
  {
    if Truthy(data.token) {
      storage.SetItem(AuthTokenKey, data.token.value);
    }
    if data.user.Some? {
      storage.SetItem(UserKey, Stringify(data.user.value));
    }
  }

  method ClearAuthData(storage: LocalStorage)
    modifies storage
    ensures storage.items == WithoutAuthData(old(storage.items))
  {
    storage.RemoveItem(AuthTokenKey);
    storage.RemoveItem(UserKey);
  }

  /**
   * getAuthData: the stored token as it is, and the parsed user when a
   * non-empty user string is stored; `None` when parsing throws.
   */
  function GetAuthData(items: map<string, string>, parse: string -> Option<User>): (r: Option<StoredAuth>)
    ensures r.None? <==> Truthy(Lookup(items, UserKey)) && parse(items[UserKey]).None?
    ensures r.Some? ==> r.value.token == Lookup(items, AuthTokenKey)
    ensures r.Some? ==> (r.value.user.Some? <==> Truthy(Lookup(items, UserKey)))
    ensures r.Some? && Truthy(Lookup(items, UserKey)) ==> r.value.user == parse(items[UserKey])
  {
    var token := Lookup(items, AuthTokenKey);
    var userStr := Lookup(items, UserKey);
    if Truthy(userStr) then
      match parse(userStr.value)
      case None => None
      case Some(u) => Some(StoredAuth(token, Some(u)))
    else Some(StoredAuth(token, None))
  }

  /** isAuthenticated: a non-empty token and a non-empty user string are stored; `None` when parsing throws. */
  function IsAuthenticated(items: map<string, string>, parse: string -> Option<User>): (r: Option<bool>)
    ensures r.None? <==> Truthy(Lookup(items, UserKey)) && parse(items[UserKey]).None?
    ensures r.Some? ==> (r.value <==> Truthy(Lookup(items, AuthTokenKey)) && Truthy(Lookup(items, UserKey)))
  {
    match GetAuthData(items, parse)
    case None => None
    case Some(stored) => Some(Truthy(stored.token) && stored.user.Some?)
  }

  /** After clearAuthData nobody is signed in, and nothing can make the check throw. */
  lemma ClearedIsAnonymous(items: map<string, string>, parse: string -> Option<User>)
    ensures IsAuthenticated(WithoutAuthData(items), parse) == Some(false)
  {
    assert Lookup(WithoutAuthData(items), UserKey) == None;
  }

  /**
   * After setAuthData with a token and a user, reading back gives that token
   * and, when parsing undoes serialising, that user; the session then counts
   * as authenticated and the guard lets it into protected routes.
   */
  lemma SetThenGet(items: map<string, string>, data: AuthData, parse: string -> Option<User>, path: string)
    requires Truthy(data.token) && data.user.Some?
    requires parse(Stringify(data.user.value)) == data.user
    ensures GetAuthData(WithAuthData(items, data), parse) == Some(StoredAuth(data.token, data.user))
    ensures IsAuthenticated(WithAuthData(items, data), parse) == Some(true)
    ensures Routing.Guard(path, WithAuthData(items, data)) == Routing.Allow
  {
    var r := WithAuthData(items, data);
    assert Lookup(r, UserKey) == Some(Stringify(data.user.value));
  }

  /** After clearAuthData the guard turns every protected route away. */
  lemma ClearedIsTurnedAway(items: map<string, string>)
    ensures Routing.Guard("/home", WithoutAuthData(items)) == Routing.Redirect("/")
  {
    Routing.OnlyHomeProtected("/home");
  }
}
