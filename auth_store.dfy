/**
 * The session store of src/store/useAuthStore.ts: the signed-in user and
 * token, the loading flag and the last error, kept in step with the
 * `auth_token` and `user` entries of localStorage. Each server call is the
 * parameter `api`, a function from the request body to the call's outcome;
 * a failed call goes through the response interceptor of src/services/api.ts
 * before the store sees it.
 */
module Auth {
  import opened Wrappers
  import opened Text
  import opened Storage
  import opened Users
  import Toasts
  import Routing
  import opened Api
  import AuthService

  // ---------------------------------------------------------------------------
  // Request and response shapes
  // ---------------------------------------------------------------------------

  datatype Credentials = Credentials(cpf: string, password: string)

  /** The body of a registration request. */
  datatype RegisterData = RegisterData(
    name: string,
    email: string,
    cpf: string,
    phone: string,
    country: string,
    password: string,
    hasAdvisor: bool,
    advisorName: string)

  /** What the server returns for a successful sign-in or registration. */
  datatype AuthResponse = AuthResponse(user: User, token: string, message: Option<string>)

  /** The envelope every endpoint answers with. */
  datatype ApiResponse = ApiResponse(
    success: bool,
    data: Option<AuthResponse>,
    message: Option<string>,
    error: Option<string>)

  /** What `login` and `register` resolve to. */
  datatype AuthResult = AuthResult(success: bool, data: Option<AuthResponse>, error: Option<string>)

  const LoginTitle := "Erro no login"
  const LoginFallback := "Erro ao fazer login"
  const RegisterTitle := "Erro no cadastro"
  const RegisterFallback := "Erro ao realizar cadastro"
  const LogoutFault := Notice("Erro no logout", "Não foi possível fazer logout")

  const GuestName := "Usuário"
  const GuestAccount := "00000000-0"

  // ---------------------------------------------------------------------------
  // Computed getters
  // ---------------------------------------------------------------------------

  /** `isAuthenticated`: `!!token`. */
  function SignedIn(token: Option<string>): (r: bool)
    ensures r <==> token.Some? && token.value != ""
  {
    Truthy(token)
  }

  /** `user?.name`, as a possibly missing string. */
  function NameOf(user: Option<User>): Option<string> {
    if user.Some? then Some(user.value.name) else None
  }

  /** `userName`: the user's name, or "Usuário" when there is none. */
  function DisplayName(user: Option<User>): (r: string)
    ensures r != ""
    ensures user.Some? && user.value.name != "" ==> r == user.value.name
    ensures user.None? || user.value.name == "" ==> r == GuestName
  {
    OrElse(NameOf(user), GuestName)
  }

  /** `userAccount`: the account number, or the placeholder "00000000-0". */
  function DisplayAccount(user: Option<User>): (r: string)
    ensures r != ""
    ensures user.Some? && user.value.accountNumber != "" ==> r == user.value.accountNumber
    ensures user.None? || user.value.accountNumber == "" ==> r == GuestAccount
  {
    OrElse(if user.Some? then Some(user.value.accountNumber) else None, GuestAccount)
  }

  /**
   * `parts.map(n => n[0]).join("")`: the first character of every piece;
   * an empty piece gives `undefined`, which `join` writes as nothing.
   */
  function Heads(parts: seq<string>): (r: string)
    ensures |r| <= |parts|
  {
    if parts == [] then []
    else (if parts[0] == [] then [] else [parts[0][0]]) + Heads(parts[1..])
  }

  /** One piece gives its first character, or nothing when it is empty. */
  lemma HeadsOfOne(part: string)
    ensures Heads([part]) == if part == [] then [] else [part[0]]
  {
    assert [part][1..] == [];
  }

  /** The heads of two runs of pieces, one after the other. */
  lemma {:induction false} HeadsAppend(a: seq<string>, b: seq<string>)
    ensures Heads(a + b) == Heads(a) + Heads(b)
    decreases |a|
  {
    if a == [] {
      assert a + b == b;
    } else {
      assert (a + b)[1..] == a[1..] + b;
      HeadsAppend(a[1..], b);
    }
  }

  /** `s.slice(0, n)` */
  function Take(s: string, n: nat): (r: string)
    ensures |r| == if |s| <= n then |s| else n
    ensures r == s[..|r|]
  {
    if |s| <= n then s else s[..n]
  }

  /** `userInitials`: the upper-cased first letters of the first two space-separated words. */
  function Initials(user: Option<User>): (r: string)
    ensures |r| <= 2
  {
    var name := DisplayName(user);
    Take(Upper(Heads(Split(name, ' '))), 2)
  }

  /** Without a name the initials are those of the placeholder, "U". */
  lemma GuestInitials(user: Option<User>)
    requires user.None? || user.value.name == ""
    ensures Initials(user) == "U"
  {
    assert ' ' !in GuestName by {
      forall k | 0 <= k < |GuestName| ensures GuestName[k] != ' ' { }
    }
    SplitWord(GuestName, ' ');
    assert Heads([GuestName]) == "U";
  }

  /** A one-word name gives its own first letter, upper-cased. */
  lemma InitialsOfOneWord(u: User)
    requires u.name != [] && ' ' !in u.name
    ensures Initials(Some(u)) == [UpperChar(u.name[0])]
  {
    SplitWord(u.name, ' ');
    assert Heads([u.name]) == [u.name[0]];
  }

  /**
   * A name of two or more words gives the first letters of the first two,
   * upper-cased; later words play no part.
   */
  lemma InitialsOfFullName(u: User, first: string, others: string)
    requires u.name == first + [' '] + others
    requires first != [] && ' ' !in first
    requires others != [] && others[0] != ' '
    ensures Initials(Some(u)) == [UpperChar(first[0]), UpperChar(others[0])]
  {
    SplitFirstWord(first, others, ' ');
    var rest := Split(others, ' ');
    assert rest[0] != [] && rest[0][0] == others[0];
    var parts := [first] + rest;
    assert parts[1..] == rest;
    assert Heads(parts) == [first[0]] + Heads(rest);
    assert Heads(rest) == [others[0]] + Heads(rest[1..]);
    var h := Heads(parts);
    assert h[..2] == [first[0], others[0]];
  }

  // ---------------------------------------------------------------------------
  // login and register, as a specification
  // ---------------------------------------------------------------------------

  /** Everything one `login` or `register` call decides. */
  datatype Attempt = Attempt(
    result: AuthResult,        // what the call resolves to
    notices: seq<Notice>,      // error toasts, the interceptor's first
    clearsStorage: bool,       // the interceptor removed the session keys
    redirect: Option<string>)  // the interceptor's router.push

  /**
   * The effect of one `login` or `register` call, given the call's outcome,
   * the toast title and default message of the operation, and the router's
   * path when the call fails.
   */
  function Settle(outcome: CallOutcome<ApiResponse>, title: string, fallback: string, currentPath: string): (a: Attempt)
    requires fallback != ""
    ensures a.result.success <==> outcome.Delivered? && outcome.body.success && outcome.body.data.Some?
    ensures a.result.success ==>
      a.result.data == outcome.body.data && a.result.error.None?
      && a.notices == [] && !a.clearsStorage && a.redirect.None?
    ensures !a.result.success ==>
      a.result.data.None? && a.result.error.Some? && a.result.error.value != ""
      && 1 <= |a.notices| <= 2 && a.notices[|a.notices| - 1] == Notice(title, a.result.error.value)
    ensures outcome.Delivered? && !a.result.success ==>
      a.result.error == Some(OrElse(outcome.body.message, fallback))
      && |a.notices| == 1 && !a.clearsStorage && a.redirect.None?
    ensures outcome.Failed? ==>
      var rejection := Classify(outcome.failure, currentPath);
      && a.result.error == Some(OrElse(Some(rejection.error.message), fallback))
      && a.notices == rejection.notices + [Notice(title, a.result.error.value)]
      && a.clearsStorage == rejection.clearsSession
      && a.redirect == rejection.redirect
  {
    match outcome
    case Delivered(response) =>
      if response.success && response.data.Some? then
        Attempt(AuthResult(true, response.data, None), [], false, None)
      else
        var message := OrElse(response.message, fallback);
        Attempt(AuthResult(false, None, Some(message)), [Notice(title, message)], false, None)
    case Failed(f) =>
      var rejection := Classify(f, currentPath);
      var message := OrElse(Some(rejection.error.message), fallback);
      Attempt(AuthResult(false, None, Some(message)), rejection.notices + [Notice(title, message)],
        rejection.clearsSession, rejection.redirect)
  }

  /**
   * When the server answered with an error status its own message reaches
   * the caller: the interceptor never leaves it empty, so the store's
   * default is not used.
   */
  lemma ServerMessageWins(status: int, data: Option<ErrorBody>, title: string, fallback: string, currentPath: string)
    requires fallback != ""
    ensures Settle(Failed(ResponseFailure(status, data)), title, fallback, currentPath).result.error
      == Some(ResponseMessage(data))
  {
  }

  /** `login` and `register` differ only in the wording of their error: the branches and effects are the same. */
  lemma LoginMirrorsRegister(outcome: CallOutcome<ApiResponse>, currentPath: string)
    ensures var l := Settle(outcome, LoginTitle, LoginFallback, currentPath);
      var r := Settle(outcome, RegisterTitle, RegisterFallback, currentPath);
      && l.result.success == r.result.success
      && l.result.data == r.result.data
      && |l.notices| == |r.notices|
      && (l.notices != [] ==> l.notices[..|l.notices| - 1] == r.notices[..|r.notices| - 1])
      && l.clearsStorage == r.clearsStorage
      && l.redirect == r.redirect
  {
    match outcome
    case Delivered(response) =>
    case Failed(f) =>
      var rejection := Classify(f, currentPath);
      var l := Settle(outcome, LoginTitle, LoginFallback, currentPath);
      var r := Settle(outcome, RegisterTitle, RegisterFallback, currentPath);
      assert l.notices[..|l.notices| - 1] == rejection.notices;
      assert r.notices[..|r.notices| - 1] == rejection.notices;
  }

  /**
   * The storage a successful sign-in leaves: the token and the serialised
   * user written, nothing else touched.
   */
  function WithSession(items: map<string, string>, token: string, json: string): (r: map<string, string>)
    ensures Lookup(r, AuthTokenKey) == Some(token)
    ensures Lookup(r, UserKey) == Some(json)
    ensures forall k :: k != AuthTokenKey && k != UserKey ==> Lookup(r, k) == Lookup(items, k)
  {
    assert AuthTokenKey != UserKey by { assert AuthTokenKey[0] != UserKey[0]; }
    items[AuthTokenKey := token][UserKey := json]
  }

  /** The storage after signing in with `data`. */
  function SignedInStorage(items: map<string, string>, data: AuthResponse): map<string, string> {
    WithSession(items, data.token, Stringify(data.user))
  }

  /** With a non-empty token the store writes what `setAuthData` would. */
  lemma SessionIsAuthData(items: map<string, string>, data: AuthResponse)
    requires data.token != ""
    ensures SignedInStorage(items, data)
      == AuthService.WithAuthData(items, AuthService.AuthData(Some(data.token), Some(data.user)))
  {
    var a := SignedInStorage(items, data);
    var b := AuthService.WithAuthData(items, AuthService.AuthData(Some(data.token), Some(data.user)));
    forall k ensures (k in a <==> k in b) && (k in a ==> a[k] == b[k]) {
      assert Lookup(a, k) == Lookup(b, k);
    }
  }

  /**
   * A sign-in whose answer carries an empty token still stores the user, so
   * the route guard, which looks only at `user`, admits "/home" while
   * `isAuthenticated` is false and requests go out without a bearer header.
   */
  lemma EmptyTokenSignIn(items: map<string, string>, data: AuthResponse, headers: map<string, string>)
    requires data.token == ""
    ensures Routing.Guard("/home", SignedInStorage(items, data)) == Routing.Allow
    ensures !SignedIn(Some(data.token))
    ensures Authorize(SignedInStorage(items, data), headers) == headers
  {
  }

  // ---------------------------------------------------------------------------
  // loadFromStorage, as a specification
  // ---------------------------------------------------------------------------

  /** What `loadFromStorage` finds. */
  datatype Stored =
    | Nothing                           // a key is missing or empty: the store is left alone
    | Session(user: User, token: string) // both present and the user parses
    | Corrupt                           // both present but JSON.parse throws

  function Load(items: map<string, string>, parse: string -> Option<User>): (r: Stored)
    ensures r.Nothing? <==> !Truthy(Lookup(items, AuthTokenKey)) || !Truthy(Lookup(items, UserKey))
    ensures r.Session? ==> Some(r.token) == Lookup(items, AuthTokenKey) && r.token != ""
    ensures r.Session? ==> parse(items[UserKey]) == Some(r.user)
    ensures r.Corrupt? <==>
      (Truthy(Lookup(items, AuthTokenKey)) && Truthy(Lookup(items, UserKey)) && parse(items[UserKey]).None?)
  {
    var storedToken := Lookup(items, AuthTokenKey);
    var userStr := Lookup(items, UserKey);
    if Truthy(storedToken) && Truthy(userStr) then
      match parse(userStr.value)
      case None => Corrupt
      case Some(u) => Session(u, storedToken.value)
    else Nothing
  }

  /**
   * The store restores a session exactly when the stored-session check of
   * src/services/authService.ts says one is there, and finds the storage
   * corrupt only where that check would throw.
   */
  lemma LoadAgreesWithService(items: map<string, string>, parse: string -> Option<User>)
    ensures Load(items, parse).Session? <==> AuthService.IsAuthenticated(items, parse) == Some(true)
    ensures Load(items, parse).Corrupt? ==> AuthService.IsAuthenticated(items, parse).None?
  {
  }

  /** A reload right after a successful sign-in restores that user and token, when parsing undoes serialising. */
  lemma ReloadRestoresSession(items: map<string, string>, data: AuthResponse, parse: string -> Option<User>)
    requires data.token != ""
    requires parse(Stringify(data.user)) == Some(data.user)
    ensures Load(SignedInStorage(items, data), parse) == Session(data.user, data.token)
  {
    var after := SignedInStorage(items, data);
    assert after[UserKey] == Stringify(data.user);
  }

  // ---------------------------------------------------------------------------
  // The store
  // ---------------------------------------------------------------------------

  class AuthStore {
    var user: Option<User>
    var token: Option<string>
    var isLoading: bool
    var error: Option<string>

    const storage: LocalStorage
    const toasts: Toasts.ToastStore
    const router: Routing.Router

    /** The toast queue is well formed, and a user is held exactly when a token is. */
    ghost predicate Valid()
      reads this, toasts
    {
      toasts.Valid() && (user.Some? <==> token.Some?)
    }

    constructor (storage: LocalStorage, toasts: Toasts.ToastStore, router: Routing.Router)
      requires toasts.Valid()
      ensures Valid()
      ensures user.None? && token.None? && !isLoading && error.None?
      ensures this.storage == storage && this.toasts == toasts && this.router == router
    {
      this.storage, this.toasts, this.router := storage, toasts, router;
      user, token, isLoading, error := None, None, false, None;
    }

    /**
     * What one `login` or `register` call leaves in the session itself: the
     * user, token and storage taken from the answer, or the error kept and
     * the storage the interceptor left; `isLoading` cleared either way.
     * `currentPath` is the router's path when the call was made.
     */
    twostate predicate SessionSettled(new outcome: CallOutcome<ApiResponse>, title: string, fallback: string, currentPath: string)
      requires fallback != ""
      reads this, storage
    {
      var a := Settle(outcome, title, fallback, currentPath);
      && !isLoading
      && (a.result.success ==>
            && user == Some(a.result.data.value.user) && token == Some(a.result.data.value.token)
            && error.None?
            && storage.items == SignedInStorage(old(storage.items), a.result.data.value))
      && (!a.result.success ==>
            && user == old(user) && token == old(token)
            && error == a.result.error
            && storage.items == (if a.clearsStorage then old(storage.items) - {AuthTokenKey, UserKey} else old(storage.items)))
    }

    /**
     * One `login` or `register` call has run to the end as `Settle`
     * describes: the session settled as above, the toasts shown and the
     * interceptor's router effects.
     */
    twostate predicate Settled(new outcome: CallOutcome<ApiResponse>, title: string, fallback: string, result: AuthResult)
      requires fallback != ""
      reads this, storage, toasts, router
    {
      var a := Settle(outcome, title, fallback, old(router.currentPath));
      && result == a.result
      && SessionSettled(outcome, title, fallback, old(router.currentPath))
      && toasts.toastId == old(toasts.toastId) + |a.notices|
      && toasts.toasts == old(toasts.toasts) + NoticeToasts(a.notices, old(toasts.toastId))
      && toasts.timers == old(toasts.timers) + NoticeTimers(a.notices, old(toasts.toastId))
      && router.pushed == old(router.pushed) + Pushes(a.redirect)
      && router.currentPath == old(router.currentPath)
    }

    /**
     * The body shared by `login` and `register`: one call, then either the
     * session from the answer or an error message and a toast; `isLoading`
     * is cleared however it ends.
     */
    method Authenticate(outcome: CallOutcome<ApiResponse>, title: string, fallback: string) returns (result: AuthResult)
      requires Valid() && fallback != ""
      modifies this, storage, toasts, router
      ensures Valid()
      ensures Settled(outcome, title, fallback, result)
    {
      ghost var a := Settle(outcome, title, fallback, router.currentPath);
      isLoading := true;
      error := None;
      match outcome {
        case Delivered(response) =>
          if response.success && response.data.Some? {
            TakeSession(response.data.value);
            result := AuthResult(true, response.data, None);
            assert a == Attempt(result, [], false, None);
          } else {
            var message := OrElse(response.message, fallback);
            Refuse(title, message);
            result := AuthResult(false, None, error);
            assert a == Attempt(result, [Notice(title, message)], false, None);
          }
        case Failed(f) =>
          var message := Fail(f, title, fallback);
          result := AuthResult(false, None, Some(message));
      }
      isLoading := false;
    }

    /** The success branch: the session from the answer, in the store and in storage. */
    method TakeSession(data: AuthResponse)
      requires toasts.Valid()
      modifies this, storage
      ensures Valid()
      ensures user == Some(data.user) && token == Some(data.token)
      ensures storage.items == SignedInStorage(old(storage.items), data)
      ensures isLoading == old(isLoading) && error == old(error)
    {
      user := Some(data.user);
      token := Some(data.token);
      storage.SetItem(AuthTokenKey, data.token);
      storage.SetItem(UserKey, Stringify(data.user));
    }

    /** The catch branch: the interceptor's effects, then the store's own message and toast. */
    method Fail(f: Failure, title: string, fallback: string) returns (message: string)
      requires Valid() && fallback != ""
      modifies this, storage, toasts, router
      ensures Valid()
      ensures var rejection := Classify(f, old(router.currentPath));
        && message == OrElse(Some(rejection.error.message), fallback)
        && error == Some(message)
        && user == old(user) && token == old(token) && isLoading == old(isLoading)
        && storage.items == (if rejection.clearsSession then old(storage.items) - {AuthTokenKey, UserKey} else old(storage.items))
        && toasts.toastId == old(toasts.toastId) + |rejection.notices| + 1
        && toasts.toasts == old(toasts.toasts) + NoticeToasts(rejection.notices + [Notice(title, message)], old(toasts.toastId))
        && toasts.timers == old(toasts.timers) + NoticeTimers(rejection.notices + [Notice(title, message)], old(toasts.toastId))
        && router.pushed == old(router.pushed) + Pushes(rejection.redirect)
        && router.currentPath == old(router.currentPath)
    {
      ghost var lastId := toasts.toastId;
      var err := Reject(storage, toasts, router, f);
      message := OrElse(Some(err.message), fallback);
      Refuse(title, message);
      NoticeToastsAppend(old(toasts.toasts), old(toasts.timers), Classify(f, old(router.currentPath)).notices, [Notice(title, message)], lastId);
    }

    /** The failure branches: `error.value = message` and `showError(title, message)`. */
    method Refuse(title: string, message: string)
      requires Valid()
      modifies this, toasts
      ensures Valid()
      ensures error == Some(message)
      ensures user == old(user) && token == old(token) && isLoading == old(isLoading)
      ensures toasts.toastId == old(toasts.toastId) + 1
      ensures toasts.toasts == old(toasts.toasts) + NoticeToasts([Notice(title, message)], old(toasts.toastId))
      ensures toasts.timers == old(toasts.timers) + NoticeTimers([Notice(title, message)], old(toasts.toastId))
    {
      error := Some(message);
      ShowNotice(toasts, Notice(title, message));
    }

    /** `login(credentials)`: posts the credentials to "/auth/login". */
    method Login(credentials: Credentials, api: Credentials -> CallOutcome<ApiResponse>) returns (result: AuthResult)
      requires Valid()
      modifies this, storage, toasts, router
      ensures Valid()
      ensures Settled(api(credentials), LoginTitle, LoginFallback, result)
    {
      result := Authenticate(api(credentials), LoginTitle, LoginFallback);
    }

    /** `register(userData)`: posts the registration to "/auth/register". */
    method Register(data: RegisterData, api: RegisterData -> CallOutcome<ApiResponse>) returns (result: AuthResult)
      requires Valid()
      modifies this, storage, toasts, router
      ensures Valid()
      ensures Settled(api(data), RegisterTitle, RegisterFallback, result)
    {
      result := Authenticate(api(data), RegisterTitle, RegisterFallback);
    }

    /**
     * `logout()`: posts to "/auth/logout"; a failure goes through the
     * interceptor and adds the store's own toast, and the session is cleared
     * either way. `failure` is `None` when the call succeeds.
     */
    method Logout(failure: Option<Failure>)
      requires Valid()
      modifies this, storage, toasts, router
      ensures Valid()
      ensures user.None? && token.None?
      ensures storage.items == AuthService.WithoutAuthData(old(storage.items))
      ensures isLoading == old(isLoading) && error == old(error)
      ensures router.currentPath == old(router.currentPath)
      ensures failure.None? ==>
        && toasts.toastId == old(toasts.toastId)
        && toasts.toasts == old(toasts.toasts) && toasts.timers == old(toasts.timers)
        && router.pushed == old(router.pushed)
      ensures failure.Some? ==>
        var rejection := Classify(failure.value, old(router.currentPath));
        && toasts.toastId == old(toasts.toastId) + |rejection.notices| + 1
        && toasts.toasts == old(toasts.toasts) + NoticeToasts(rejection.notices + [LogoutFault], old(toasts.toastId))
        && toasts.timers == old(toasts.timers) + NoticeTimers(rejection.notices + [LogoutFault], old(toasts.toastId))
        && router.pushed == old(router.pushed) + Pushes(rejection.redirect)
    {
      if failure.Some? {
        ghost var lastId := toasts.toastId;
        var _ := Reject(storage, toasts, router, failure.value);
        ShowNotice(toasts, LogoutFault);
        NoticeToastsAppend(old(toasts.toasts), old(toasts.timers), Classify(failure.value, old(router.currentPath)).notices, [LogoutFault], lastId);
      }
      ClearAuth();
    }

    /** `loadFromStorage()`: restores a stored session; a user that does not parse clears everything. */
    method LoadFromStorage(parse: string -> Option<User>)
      requires Valid()
      modifies this, storage
      ensures Valid()
      ensures var found := Load(old(storage.items), parse);
        && (found.Nothing? ==> user == old(user) && token == old(token) && storage.items == old(storage.items))
        && (found.Session? ==> user == Some(found.user) && token == Some(found.token) && storage.items == old(storage.items))
        && (found.Corrupt? ==> user.None? && token.None? && storage.items == AuthService.WithoutAuthData(old(storage.items)))
      ensures isLoading == old(isLoading) && error == old(error)
    {
      var storedToken := Lookup(storage.items, AuthTokenKey);
      var userStr := Lookup(storage.items, UserKey);
      if Truthy(storedToken) && Truthy(userStr) {
        token := storedToken;
        match parse(userStr.value)
        case None =>
          ClearAuth();
        case Some(u) =>
          user := Some(u);
      }
    }

    /** `clearAuth()`: forgets the session here and in storage. */
    method ClearAuth()
      requires toasts.Valid()
      modifies this, storage
      ensures Valid()
      ensures user.None? && token.None?
      ensures storage.items == AuthService.WithoutAuthData(old(storage.items))
      ensures isLoading == old(isLoading) && error == old(error)
    {
      user := None;
      token := None;
      storage.RemoveItem(AuthTokenKey);
      storage.RemoveItem(UserKey);
    }
  }

  /**
   * A sign-in followed by a page reload: when the server accepts the
   * credentials with a non-empty token, a fresh store reading the same
   * storage holds the same user and token.
   */
  method SignInThenReload(store: AuthStore, credentials: Credentials,
                          api: Credentials -> CallOutcome<ApiResponse>, parse: string -> Option<User>)
    returns (reloaded: AuthStore)
    requires store.Valid()
    requires api(credentials).Delivered? && api(credentials).body.success && api(credentials).body.data.Some?
    requires api(credentials).body.data.value.token != ""
    requires var u := api(credentials).body.data.value.user; parse(Stringify(u)) == Some(u)
    modifies store, store.storage, store.toasts, store.router
    ensures reloaded.user == store.user && reloaded.token == store.token && reloaded.user.Some?
  {
    var result := store.Login(credentials, api);
    ReloadRestoresSession(old(store.storage.items), api(credentials).body.data.value, parse);
    reloaded := new AuthStore(store.storage, store.toasts, store.router);
    reloaded.LoadFromStorage(parse);
  }
}
