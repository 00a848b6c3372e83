/**
 * The form composables of src/composables/useRegisterForm.ts: the
 * registration form's own rules (which differ from the declarative schema
 * in RegisterSchema), the digit-only payloads sent to the session store, and
 * what a submission does to the form and the screen.
 */
module RegisterForm {
  import opened Wrappers
  import opened Text
  import opened RegisterSchema
  import Formatters
  import Validators
  import opened Users
  import Toasts
  import Routing
  import opened Api
  import opened Auth

  /** The number of digits a CPF and a mobile number carry. */
  const DigitCount := 11

  const Registered := Notice("Cadastro realizado!", "Sua conta foi criada com sucesso. Você será redirecionado em instantes.")
  const RegisterFormFallback := "Não foi possível criar sua conta. Tente novamente."
  const Welcome := Notice("Login realizado!", "Seja bem-vindo(a) de volta!")
  const LoginFormFallback := "CPF ou senha incorretos. Tente novamente."
  const HomeRoute := "/home"

  // ---------------------------------------------------------------------------
  // Field rules
  // ---------------------------------------------------------------------------

  /**
   * The "cpf" and "phone" tests: a non-empty value with exactly eleven
   * digits once everything else is stripped.
   */
  function ElevenDigits(value: string): (ok: bool)
    ensures ok <==> |DigitsOnly(value)| == DigitCount
  {
    if value == "" then false
    else
      var cleaned := DigitsOnly(value);
      |cleaned| == DigitCount
  }

  /** Masking a CPF or a phone number never changes what the tests say. */
  lemma ElevenDigitsIgnoresMasks(value: string)
    ensures ElevenDigits(Formatters.FormatCpf(value)) == ElevenDigits(value)
    ensures ElevenDigits(Formatters.FormatPhone(value)) == ElevenDigits(value)
  {
    Formatters.FormatCpfKeepsDigits(value);
    Formatters.FormatPhoneKeepsDigits(value);
  }

  /** A phone number the form accepts is one validatePhone accepts too. */
  lemma FormPhoneIsValidPhone(value: string)
    requires ElevenDigits(value)
    ensures Validators.ValidatePhone(value)
  {
  }

  /**
   * The rule the form's own schema applies to one field: the e-mail is only
   * required here and any non-empty country passes.
   */
  predicate FormAccepts(f: FormValues, fld: Field) {
    match fld
    case Name => Required(f.name)
    case Email => Required(f.email)
    case Cpf => Required(f.cpf) && ElevenDigits(f.cpf)
    case Phone => Required(f.phone) && ElevenDigits(f.phone)
    case Country => Required(f.country)
    case Password => Required(f.password) && PasswordLengthOk(f.password)
    case AdvisorName => !f.hasAdvisor || Required(f.advisorName)
  }

  /** The fields the form's schema rejects: exactly those whose rule fails. */
  function FormViolations(f: FormValues): (errs: set<Field>)
    ensures forall fld :: fld in errs <==> !FormAccepts(f, fld)
  {
    assert forall fld :: fld in AllFields by {
      forall fld ensures fld in AllFields { EveryField(fld); }
    }
    set fld | fld in AllFields && !FormAccepts(f, fld)
  }

  /** A form the form's schema accepts has eleven-digit CPF and phone numbers and a 6 to 8 character password. */
  lemma FormAcceptedMeans(f: FormValues)
    requires FormViolations(f) == {}
    ensures |DigitsOnly(f.cpf)| == DigitCount && |DigitsOnly(f.phone)| == DigitCount
    ensures PasswordLengthOk(f.password) && f.name != "" && f.email != "" && f.country != ""
    ensures f.hasAdvisor ==> f.advisorName != ""
  {
    assert FormAccepts(f, Cpf) && FormAccepts(f, Phone) && FormAccepts(f, Country);
    assert FormAccepts(f, Password) && FormAccepts(f, Name) && FormAccepts(f, Email) && FormAccepts(f, AdvisorName);
  }

  /** The form and the declarative schema agree on the password and advisor rules. */
  lemma PasswordAndAdvisorRulesAgree(f: FormValues)
    ensures Password in FormViolations(f) <==> Password in Violations(f)
    ensures AdvisorName in FormViolations(f) <==> AdvisorName in Violations(f)
    ensures Name in FormViolations(f) <==> Name in Violations(f)
  {
  }

  /** The form lets through countries the declarative schema does not list. */
  lemma FormAcceptsUnlistedCountry(f: FormValues)
    requires f.country != "" && f.country !in Countries
    ensures Country !in FormViolations(f) && Country in Violations(f)
  {
  }

  /**
   * Where the two schemas meet: eleven digits, masked for display, pass
   * both; typed bare, they pass the form but not the declarative schema.
   */
  lemma MaskedDigitsPassBoth(f: FormValues, cpfDigits: string, phoneDigits: string)
    requires |cpfDigits| == DigitCount && AllDigits(cpfDigits)
    requires |phoneDigits| == DigitCount && AllDigits(phoneDigits)
    ensures var g := f.(cpf := Formatters.FormatCpf(cpfDigits), phone := Formatters.FormatPhone(phoneDigits));
      && Cpf !in FormViolations(g) && Phone !in FormViolations(g)
      && Cpf !in Violations(g) && Phone !in Violations(g)
    ensures var h := f.(cpf := cpfDigits);
      Cpf !in FormViolations(h) && Cpf in Violations(h)
  {
    MaskedInputsMeetSchema(f, cpfDigits, phoneDigits);
    Formatters.FormatCpfOfDigits(cpfDigits);
    Formatters.FormatPhoneOfDigits(phoneDigits);
    BareCpfRejected(f.(cpf := cpfDigits));
  }

  // ---------------------------------------------------------------------------
  // Payloads
  // ---------------------------------------------------------------------------

  /** `{ ...formValues, cpf: digits of cpf, phone: digits of phone }` */
  function RegisterPayload(f: FormValues): (r: RegisterData)
    ensures r.cpf == DigitsOnly(f.cpf) && r.phone == DigitsOnly(f.phone)
    ensures AllDigits(r.cpf) && AllDigits(r.phone)
    ensures r.name == f.name && r.email == f.email && r.country == f.country && r.password == f.password
    ensures r.hasAdvisor == f.hasAdvisor && r.advisorName == f.advisorName
  {
    RegisterData(f.name, f.email, DigitsOnly(f.cpf), DigitsOnly(f.phone), f.country, f.password,
      f.hasAdvisor, f.advisorName)
  }

  /** A form the schema accepts sends eleven-digit CPF and phone numbers. */
  lemma AcceptedFormSendsElevenDigits(f: FormValues)
    requires FormViolations(f) == {}
    ensures |RegisterPayload(f).cpf| == DigitCount && |RegisterPayload(f).phone| == DigitCount
  {
    FormAcceptedMeans(f);
  }

  /** Whether the user typed the masks or not, the server receives the same registration. */
  lemma RegisterPayloadIgnoresMasks(f: FormValues)
    ensures RegisterPayload(f.(cpf := Formatters.FormatCpf(f.cpf), phone := Formatters.FormatPhone(f.phone)))
      == RegisterPayload(f)
  {
    Formatters.FormatCpfKeepsDigits(f.cpf);
    Formatters.FormatPhoneKeepsDigits(f.phone);
  }

  /** The login form's values. */
  datatype LoginValues = LoginValues(cpf: string, password: string)

  /** `{ cpf: digits of cpf, password }` */
  function LoginPayload(v: LoginValues): (r: Credentials)
    ensures r.cpf == DigitsOnly(v.cpf) && r.password == v.password
    ensures AllDigits(r.cpf)
    ensures AllDigits(v.cpf) ==> r.cpf == v.cpf
  {
    Credentials(DigitsOnly(v.cpf), v.password)
  }

  /** A masked or a bare CPF signs in the same way. */
  lemma LoginPayloadIgnoresMask(v: LoginValues)
    ensures LoginPayload(v.(cpf := Formatters.FormatCpf(v.cpf))) == LoginPayload(v)
  {
    Formatters.FormatCpfKeepsDigits(v.cpf);
  }

  // ---------------------------------------------------------------------------
  // Submission
  // ---------------------------------------------------------------------------

  /** The success toast the screen shows, as the toast store records it. */
  function SuccessToast(n: Notice, id: nat): Toasts.Toast {
    Toasts.Toast(id, Toasts.Success, n.title, Some(n.message), Toasts.DefaultDuration)
  }

  /** `showSuccess(n.title, n.message)` */
  method ShowSuccess(toasts: Toasts.ToastStore, n: Notice)
    requires toasts.Valid()
    modifies toasts
    ensures toasts.Valid()
    ensures toasts.toastId == old(toasts.toastId) + 1
    ensures toasts.toasts == old(toasts.toasts) + [SuccessToast(n, toasts.toastId)]
    ensures toasts.timers == old(toasts.timers) + [Toasts.Timer(toasts.toastId, Toasts.DefaultDuration)]
  {
    var _ := toasts.Success(n.title, Some(n.message), None);
  }

  /** The registration screen's state. */
  class RegisterFormState {
    var isSuccess: bool
    var userData: Option<User>
    const auth: AuthStore

    constructor (auth: AuthStore)
      ensures !isSuccess && userData.None? && this.auth == auth
    {
      this.auth := auth;
      isSuccess, userData := false, None;
    }

    /**
     * submitForm: registers the digit-only payload; on success keeps the
     * new user, sets `isSuccess` and shows the success toast, otherwise
     * shows a second error toast with the store's message. The delayed
     * navigation to "/home" is not modelled.
     */
    method SubmitForm(values: FormValues, api: RegisterData -> CallOutcome<ApiResponse>)
      requires auth.Valid()
      modifies this, auth, auth.storage, auth.toasts, auth.router
      ensures auth.Valid()
      ensures auth.SessionSettled(api(RegisterPayload(values)), RegisterTitle, RegisterFallback, old(auth.router.currentPath))
      ensures var a := Settle(api(RegisterPayload(values)), RegisterTitle, RegisterFallback, old(auth.router.currentPath));
        && auth.router.pushed == old(auth.router.pushed) + Pushes(a.redirect)
        && auth.router.currentPath == old(auth.router.currentPath)
        && (a.result.success ==>
              && userData == Some(a.result.data.value.user) && isSuccess
              && auth.toasts.toastId == old(auth.toasts.toastId) + 1
              && auth.toasts.toasts == old(auth.toasts.toasts) + [SuccessToast(Registered, auth.toasts.toastId)]
              && auth.toasts.timers == old(auth.toasts.timers) + [Toasts.Timer(auth.toasts.toastId, Toasts.DefaultDuration)])
        && (!a.result.success ==>
              var shown := a.notices + [Notice(RegisterTitle, a.result.error.value)];
              && userData == old(userData) && isSuccess == old(isSuccess)
              && auth.toasts.toastId == old(auth.toasts.toastId) + |shown|
              && auth.toasts.toasts == old(auth.toasts.toasts) + NoticeToasts(shown, old(auth.toasts.toastId))
              && auth.toasts.timers == old(auth.toasts.timers) + NoticeTimers(shown, old(auth.toasts.toastId)))
    {
      ghost var lastId := auth.toasts.toastId;
      ghost var a := Settle(api(RegisterPayload(values)), RegisterTitle, RegisterFallback, auth.router.currentPath);
      var result := auth.Register(RegisterPayload(values), api);
      Conclude(result, a.notices, lastId, old(auth.toasts.toasts), old(auth.toasts.timers));
    }

    /**
     * What the screen does with the store's answer to a registration.
     * `notices` are the error toasts the store already showed after the
     * toasts `shown` and the timers `scheduled` there were before the call,
     * whose last toast id was `lastId`; the result is stated from that point.
     */
    method Conclude(result: AuthResult, ghost notices: seq<Notice>, ghost lastId: nat,
                    ghost shown: seq<Toasts.Toast>, ghost scheduled: seq<Toasts.Timer>)
      requires auth.toasts.Valid()
      requires result.success && result.data.Some? ==> notices == []
      requires auth.toasts.toastId == lastId + |notices|
      requires auth.toasts.toasts == shown + NoticeToasts(notices, lastId)
      requires auth.toasts.timers == scheduled + NoticeTimers(notices, lastId)
      modifies this, auth.toasts
      ensures auth.toasts.Valid()
      ensures result.success && result.data.Some? ==>
        && userData == Some(result.data.value.user) && isSuccess
        && auth.toasts.toastId == lastId + 1
        && auth.toasts.toasts == shown + [SuccessToast(Registered, auth.toasts.toastId)]
        && auth.toasts.timers == scheduled + [Toasts.Timer(auth.toasts.toastId, Toasts.DefaultDuration)]
      ensures !(result.success && result.data.Some?) ==>
        var all := notices + [Notice(RegisterTitle, OrElse(result.error, RegisterFormFallback))];
        && userData == old(userData) && isSuccess == old(isSuccess)
        && auth.toasts.toastId == lastId + |all|
        && auth.toasts.toasts == shown + NoticeToasts(all, lastId)
        && auth.toasts.timers == scheduled + NoticeTimers(all, lastId)
    {
      if result.success && result.data.Some? {
        userData := Some(result.data.value.user);
        isSuccess := true;
        ShowSuccess(auth.toasts, Registered);
      } else {
        var n := Notice(RegisterTitle, OrElse(result.error, RegisterFormFallback));
        ShowNotice(auth.toasts, n);
        NoticeToastsAppend(shown, scheduled, notices, [n], lastId);
      }
    }
  }

  /**
   * submitLogin: signs in with the digit-only CPF; on success shows the
   * welcome toast and goes to "/home", otherwise shows a second error toast
   * with the store's message.
   */
  method SubmitLogin(auth: AuthStore, values: LoginValues, api: Credentials -> CallOutcome<ApiResponse>)
    requires auth.Valid()
    modifies auth, auth.storage, auth.toasts, auth.router
    ensures auth.Valid()
    ensures auth.SessionSettled(api(LoginPayload(values)), LoginTitle, LoginFallback, old(auth.router.currentPath))
    ensures auth.router.currentPath == old(auth.router.currentPath)
    ensures var a := Settle(api(LoginPayload(values)), LoginTitle, LoginFallback, old(auth.router.currentPath));
      && (a.result.success ==>
            && auth.toasts.toastId == old(auth.toasts.toastId) + 1
            && auth.toasts.toasts == old(auth.toasts.toasts) + [SuccessToast(Welcome, auth.toasts.toastId)]
            && auth.toasts.timers == old(auth.toasts.timers) + [Toasts.Timer(auth.toasts.toastId, Toasts.DefaultDuration)]
            && auth.router.pushed == old(auth.router.pushed) + [HomeRoute])
      && (!a.result.success ==>
            var shown := a.notices + [Notice(LoginTitle, a.result.error.value)];
            && auth.toasts.toastId == old(auth.toasts.toastId) + |shown|
            && auth.toasts.toasts == old(auth.toasts.toasts) + NoticeToasts(shown, old(auth.toasts.toastId))
            && auth.toasts.timers == old(auth.toasts.timers) + NoticeTimers(shown, old(auth.toasts.toastId))
            && auth.router.pushed == old(auth.router.pushed) + Pushes(a.redirect))
  {
    ghost var lastId := auth.toasts.toastId;
    ghost var a := Settle(api(LoginPayload(values)), LoginTitle, LoginFallback, auth.router.currentPath);
    var result := auth.Login(LoginPayload(values), api);
    Greet(auth.toasts, auth.router, result, a.notices, a.redirect, lastId, old(auth.toasts.toasts), old(auth.toasts.timers), old(auth.router.pushed));
  }

  /**
   * What the login screen does with the store's answer: a welcome and
   * "/home", or a second error toast. `notices` and `redirect` are what the
   * store already showed and pushed after the toasts `shown`, the timers
   * `scheduled` and the paths `pushed` there were before the call, whose
   * last toast id was `lastId`; the result is stated from that point.
   */
  method Greet(toasts: Toasts.ToastStore, router: Routing.Router, result: AuthResult,
               ghost notices: seq<Notice>, ghost redirect: Option<string>, ghost lastId: nat,
               ghost shown: seq<Toasts.Toast>, ghost scheduled: seq<Toasts.Timer>, ghost pushed: seq<string>)
    requires toasts.Valid()
    requires result.success ==> notices == [] && redirect.None?
    requires toasts.toastId == lastId + |notices|
    requires toasts.toasts == shown + NoticeToasts(notices, lastId)
    requires toasts.timers == scheduled + NoticeTimers(notices, lastId)
    requires router.pushed == pushed + Pushes(redirect)
    modifies toasts, router
    ensures toasts.Valid()
    ensures router.currentPath == old(router.currentPath)
    ensures result.success ==>
      && toasts.toastId == lastId + 1
      && toasts.toasts == shown + [SuccessToast(Welcome, toasts.toastId)]
      && toasts.timers == scheduled + [Toasts.Timer(toasts.toastId, Toasts.DefaultDuration)]
      && router.pushed == pushed + [HomeRoute]
    ensures !result.success ==>
      var all := notices + [Notice(LoginTitle, OrElse(result.error, LoginFormFallback))];
      && toasts.toastId == lastId + |all|
      && toasts.toasts == shown + NoticeToasts(all, lastId)
      && toasts.timers == scheduled + NoticeTimers(all, lastId)
      && router.pushed == pushed + Pushes(redirect)
  {
    if result.success {
      ShowSuccess(toasts, Welcome);
      router.Push(HomeRoute);
    } else {
      ShowNotice(toasts, Notice(LoginTitle, OrElse(result.error, LoginFormFallback)));
      NoticeToastsAppend(shown, scheduled, notices, [Notice(LoginTitle, OrElse(result.error, LoginFormFallback))], lastId);
    }
  }
}
