/**
 * The HTTP client adapter of src/services/api.ts: the request interceptor
 * that attaches the bearer token, and the response interceptor that turns
 * every failed call into an `ApiError`, clearing the stored session on 401,
 * showing one toast for the failures it recognises and sending the user to
 * the login page when a session expires elsewhere.
 */
module Api {
  import opened Wrappers
  import opened Text
  import opened Storage
  import Toasts
  import Routing

  // ---------------------------------------------------------------------------
  // Request interceptor
  // ---------------------------------------------------------------------------

  const AuthorizationHeader := "Authorization"
  const BearerPrefix := "Bearer "

  /** The request headers after the interceptor: a bearer header exactly when a non-empty token is stored. */
  function Authorize(items: map<string, string>, headers: map<string, string>): (r: map<string, string>)
    ensures Truthy(Lookup(items, AuthTokenKey)) ==>
      AuthorizationHeader in r && r[AuthorizationHeader] == BearerPrefix + items[AuthTokenKey]
    ensures !Truthy(Lookup(items, AuthTokenKey)) ==> r == headers
    ensures forall h :: h in headers && h != AuthorizationHeader ==> h in r && r[h] == headers[h]
    ensures forall h :: h in r ==> h in headers || h == AuthorizationHeader
  {
    var token := Lookup(items, AuthTokenKey);
    if Truthy(token) then headers[AuthorizationHeader := BearerPrefix + token.value] else headers
  }

  /** The header carries the stored token after a fixed prefix, so the server reads back exactly that token. */
  lemma BearerCarriesToken(items: map<string, string>, headers: map<string, string>)
    requires AuthTokenKey in items && items[AuthTokenKey] != ""
    ensures var r := Authorize(items, headers);
      |r[AuthorizationHeader]| == |BearerPrefix| + |items[AuthTokenKey]|
      && r[AuthorizationHeader][|BearerPrefix|..] == items[AuthTokenKey]
  {
  }

  // ---------------------------------------------------------------------------
  // Response interceptor
  // ---------------------------------------------------------------------------

  /** `data.error` of an error response, when it is an object. */
  datatype ErrorDetail = ErrorDetail(message: Option<string>, code: Option<string>)

  /** The parts of an error response body that the interceptor reads. */
  datatype ErrorBody = ErrorBody(error: Option<ErrorDetail>, message: Option<string>)

  /** Why a call failed, as the interceptor distinguishes it. */
  datatype Failure =
    | ResponseFailure(status: int, data: Option<ErrorBody>)  // error.response is set
    | NoResponse                                             // only error.request is set
    | OtherFailure(message: string)                          // neither: error.message

  /** The normalised error every failed call is rejected with. */
  datatype ApiError = ApiError(status: int, message: string, code: string, data: Option<ErrorBody>)

  /** The outcome of one call: the body the server sent, or why the call failed. */
  datatype CallOutcome<T> = Delivered(body: T) | Failed(failure: Failure)

  /** An error toast the interceptor shows. */
  datatype Notice = Notice(title: string, message: string)

  const LoginPath := "/login"
  const HomePath := "/"

  const SessionExpired := Notice("Sessão expirada", "Faça login novamente para continuar")
  const ServerFault := Notice("Erro no servidor", "Ocorreu um erro interno. Tente novamente mais tarde.")
  const ServiceDown := Notice("Serviço indisponível", "O serviço está temporariamente indisponível.")
  const ConnectionLost := Notice("Conexão perdida", "Não foi possível conectar ao servidor. Verifique sua internet.")
  const RequestFault := Notice("Erro na requisição", "Ocorreu um erro ao processar sua solicitação.")

  /** The page a 401 sends the user to has no route of its own in the route table. */
  lemma LoginPathUnrouted()
    ensures forall k :: 0 <= k < |Routing.Routes| ==> !Routing.Matches(Routing.Routes[k].path, LoginPath)
  {
    forall k | 0 <= k < |Routing.Routes| ensures !Routing.Matches(Routing.Routes[k].path, LoginPath) {
      if k == 0 {
        assert Routing.Body("/") == "";
      } else if k == 1 {
        assert Routing.Body("/register") == "/register";
      } else {
        assert Routing.Body("/home") == "/home";
        assert !Routing.SameIgnoringCase("/home/", LoginPath) by {
          assert UpperChar("/home/"[1]) != UpperChar(LoginPath[1]);
        }
      }
    }
  }

  const DefaultResponseMessage := "Erro no servidor"
  const UnavailableMessage := "Serviço indisponível. Verifique se o BFF está rodando."

  /** `data?.error?.message` */
  function DetailMessage(data: Option<ErrorBody>): Option<string> {
    if data.Some? && data.value.error.Some? then data.value.error.value.message else None
  }

  /** `data?.message` */
  function BodyMessage(data: Option<ErrorBody>): Option<string> {
    if data.Some? then data.value.message else None
  }

  /** `data?.error?.code` */
  function DetailCode(data: Option<ErrorBody>): Option<string> {
    if data.Some? && data.value.error.Some? then data.value.error.value.code else None
  }

  /** `data?.error?.message || data?.message || "Erro no servidor"` */
  function ResponseMessage(data: Option<ErrorBody>): (m: string)
    ensures m != ""
    ensures Truthy(DetailMessage(data)) ==> m == DetailMessage(data).value
    ensures !Truthy(DetailMessage(data)) && Truthy(BodyMessage(data)) ==> m == BodyMessage(data).value
    ensures !Truthy(DetailMessage(data)) && !Truthy(BodyMessage(data)) ==> m == DefaultResponseMessage
  {
    OrElse(DetailMessage(data), OrElse(BodyMessage(data), DefaultResponseMessage))
  }

  /** `data?.error?.code || "SERVER_ERROR"` */
  function ResponseCode(data: Option<ErrorBody>): (c: string)
    ensures c != ""
    ensures Truthy(DetailCode(data)) ==> c == DetailCode(data).value
    ensures !Truthy(DetailCode(data)) ==> c == "SERVER_ERROR"
  {
    OrElse(DetailCode(data), "SERVER_ERROR")
  }

  /** What the interceptor does with one failure. */
  datatype Rejection = Rejection(
    error: ApiError,             // the value the call is rejected with
    clearsSession: bool,         // auth_token and user are removed from storage
    notices: seq<Notice>,        // error toasts shown, in order
    redirect: Option<string>)    // router.push target

  /** A 401 away from the login pages: the session expired while the user was inside. */
  predicate SessionExpiredAt(f: Failure, currentPath: string) {
    f.ResponseFailure? && f.status == 401 && currentPath != HomePath && currentPath != LoginPath
  }

  /** The response interceptor's error handler, given the failure and the router's current path. */
  function Classify(f: Failure, currentPath: string): (r: Rejection)
    ensures |r.notices| <= 1
    ensures r.clearsSession <==> f.ResponseFailure? && f.status == 401
    ensures r.redirect.Some? <==> SessionExpiredAt(f, currentPath)
    ensures r.redirect.Some? ==> r.redirect.value == LoginPath && r.clearsSession
    ensures r.notices == [SessionExpired] <==> SessionExpiredAt(f, currentPath)
    ensures r.notices == [ServerFault] <==> f.ResponseFailure? && f.status == 500
    ensures r.notices == [ServiceDown] <==> f.ResponseFailure? && f.status == 503
    ensures r.notices == [] <==> f.ResponseFailure? && f.status != 500 && f.status != 503 && !SessionExpiredAt(f, currentPath)
    ensures f.ResponseFailure? ==>
      r.error == ApiError(f.status, ResponseMessage(f.data), ResponseCode(f.data), f.data)
    ensures f.NoResponse? ==>
      r.notices == [ConnectionLost] && r.error == ApiError(503, UnavailableMessage, "SERVICE_UNAVAILABLE", None)
    ensures f.OtherFailure? ==>
      r.notices == [RequestFault] && r.error == ApiError(500, f.message, "REQUEST_ERROR", None)
  {
    match f
    case ResponseFailure(status, data) =>
      var expired := SessionExpiredAt(f, currentPath);
      // The three checks of the source are on distinct statuses, so at most one fires.
      var notices :=
        if expired then [SessionExpired]
        else if status == 500 then [ServerFault]
        else if status == 503 then [ServiceDown]
        else [];
      var error := ApiError(status, ResponseMessage(data), ResponseCode(data), data);
      assert SessionExpired != ServerFault by { assert SessionExpired.title[0] != ServerFault.title[0]; }
      assert SessionExpired != ServiceDown by { assert SessionExpired.title[2] != ServiceDown.title[2]; }
      assert ServerFault != ServiceDown by { assert ServerFault.title[0] != ServiceDown.title[0]; }
      Rejection(error, status == 401, notices, if expired then Some(LoginPath) else None)
    case NoResponse =>
      Rejection(ApiError(503, UnavailableMessage, "SERVICE_UNAVAILABLE", None), false, [ConnectionLost], None)
    case OtherFailure(message) =>
      Rejection(ApiError(500, message, "REQUEST_ERROR", None), false, [RequestFault], None)
  }

  /** Every failure is rejected, and what it is rejected with always has a code. */
  lemma RejectionAlwaysCoded(f: Failure, currentPath: string)
    ensures Classify(f, currentPath).error.code != ""
    ensures f.ResponseFailure? || Classify(f, currentPath).error.status in {500, 503}
  {
  }

  /** The error toasts a list of notices becomes, numbered after `lastId`. */
  function NoticeToasts(ns: seq<Notice>, lastId: nat): (ts: seq<Toasts.Toast>)
    ensures |ts| == |ns|
    ensures forall k :: 0 <= k < |ts| ==> ts[k].id == lastId + 1 + k && ts[k].kind == Toasts.Error
  {
    seq(|ns|, k requires 0 <= k < |ns| =>
      Toasts.Toast(lastId + 1 + k, Toasts.Error, ns[k].title, Some(ns[k].message), Toasts.DefaultDuration))
  }

  /** The removal timers those toasts schedule. */
  function NoticeTimers(ns: seq<Notice>, lastId: nat): (ts: seq<Toasts.Timer>)
    ensures |ts| == |ns|
  {
    seq(|ns|, k requires 0 <= k < |ns| => Toasts.Timer(lastId + 1 + k, Toasts.DefaultDuration))
  }

  /**
   * Two lists of notices shown one after the other, after the toasts and
   * timers already there: the second list continues the numbering.
   */
  lemma NoticeToastsAppend(shown: seq<Toasts.Toast>, scheduled: seq<Toasts.Timer>, a: seq<Notice>, b: seq<Notice>, lastId: nat)
    ensures shown + NoticeToasts(a, lastId) + NoticeToasts(b, lastId + |a|) == shown + NoticeToasts(a + b, lastId)
    ensures scheduled + NoticeTimers(a, lastId) + NoticeTimers(b, lastId + |a|) == scheduled + NoticeTimers(a + b, lastId)
  {
    var ab := a + b;
    assert forall k :: 0 <= k < |a| ==> ab[k] == a[k];
    assert forall k :: |a| <= k < |ab| ==> ab[k] == b[k - |a|];
    assert NoticeToasts(ab, lastId) == NoticeToasts(a, lastId) + NoticeToasts(b, lastId + |a|);
    assert NoticeTimers(ab, lastId) == NoticeTimers(a, lastId) + NoticeTimers(b, lastId + |a|);
  }

  /** Routes a redirect, if any, into the list of pushes. */
  function Pushes(redirect: Option<string>): seq<string> {
    if redirect.Some? then [redirect.value] else []
  }

  /** `toast.error(n.title, n.message)` */
  method ShowNotice(toasts: Toasts.ToastStore, n: Notice)
    requires toasts.Valid()
    modifies toasts
    ensures toasts.Valid()
    ensures toasts.toastId == old(toasts.toastId) + 1
    ensures toasts.toasts == old(toasts.toasts) + NoticeToasts([n], old(toasts.toastId))
    ensures toasts.timers == old(toasts.timers) + NoticeTimers([n], old(toasts.toastId))
  {
    var _ := toasts.Error(n.title, Some(n.message), None);
  }

  /**
   * The response interceptor's error handler as it runs: the storage,
   * toast and router effects that `Classify` describes, and the error the
   * call is rejected with.
   */
  method Reject(storage: LocalStorage, toasts: Toasts.ToastStore, router: Routing.Router, f: Failure)
    returns (err: ApiError)
    requires toasts.Valid()
    modifies storage, toasts, router
    ensures toasts.Valid()
    ensures var r := Classify(f, old(router.currentPath));
      && err == r.error
      && storage.items == (if r.clearsSession then old(storage.items) - {AuthTokenKey, UserKey} else old(storage.items))
      && toasts.toastId == old(toasts.toastId) + |r.notices|
      && toasts.toasts == old(toasts.toasts) + NoticeToasts(r.notices, old(toasts.toastId))
      && toasts.timers == old(toasts.timers) + NoticeTimers(r.notices, old(toasts.toastId))
      && router.pushed == old(router.pushed) + Pushes(r.redirect)
      && router.currentPath == old(router.currentPath)
  {
    match f
    case ResponseFailure(status, data) =>
      if status == 401 {
        storage.RemoveItem(AuthTokenKey);
        storage.RemoveItem(UserKey);
        assert storage.items == old(storage.items) - {AuthTokenKey, UserKey};
        var currentPath := router.currentPath;
        if currentPath != HomePath && currentPath != LoginPath {
          ShowNotice(toasts, SessionExpired);
          router.Push(LoginPath);
        }
      }
      if status == 500 {
        ShowNotice(toasts, ServerFault);
      }
      if status == 503 {
        ShowNotice(toasts, ServiceDown);
      }
      err := ApiError(status, ResponseMessage(data), ResponseCode(data), data);
    case NoResponse =>
      ShowNotice(toasts, ConnectionLost);
      err := ApiError(503, UnavailableMessage, "SERVICE_UNAVAILABLE", None);
    case OtherFailure(message) =>
      ShowNotice(toasts, RequestFault);
      err := ApiError(500, message, "REQUEST_ERROR", None);
  }
}
