# Banking front-end session, toast and form logic in Dafny

This project models the logic of a Vue/Pinia banking front-end: the parts
that decide something rather than only pass data along.

- **Session store** (`Auth`, `src/store/useAuthStore.ts`). It is a class over
  `user`, `token`, `isLoading` and `error`. It shares one `localStorage`, one
  toast store and one router with the rest of the model. `login` and
  `register` are specified by one function, `Settle`. It covers the three
  branches (success envelope, failure envelope, thrown error) and the response
  interceptor's effects on the thrown path. The methods are proved to do
  exactly what `Settle` says.
- **HTTP adapter** (`Api`, `src/services/api.ts`). The request interceptor
  becomes `Authorize`, a function from the stored items to the headers. The
  response interceptor's error handler becomes a pure classification,
  `Classify`, and a method, `Reject`, that performs its storage, toast and
  router effects.
- **Stored-session helpers and the route guard** (`AuthService`, `Routing`).
- **Toast queue** (`Toasts`, `UseToast`). It is a class holding an ordered
  list, an id counter that only grows, and the removal timers that were
  scheduled. `removeToast` keeps its search loop.
- **Validators, formatters and the two registration rule sets**
  (`Validators`, `Formatters`, `RegisterSchema`, `RegisterForm`). They include
  the payload normalisation and what a form submission does to the form and
  the screen.

Inputs the program gets from outside are parameters:
- every server call is `api: Request -> CallOutcome<ApiResponse>`;
- a logout's result is `Option<Failure>`;
- `JSON.parse` is `parse: string -> Option<User>`, where `None` stands for a
  throw;
- "today" in `validateAge` is a `Date`.

## Model

| member | source | states |
|---|---|---|
| Text.OrElse | src/store/useAuthStore.ts:92 | `a \|\| fallback`: the value when it is a non-empty string, the fallback otherwise; the result is empty only when the fallback is |
| Text.DigitsOnly | src/composables/useRegisterForm.ts:40 | `replace(/\D/g, "")`: only ASCII digits remain, never longer than the input, and an all-digit string is returned unchanged |
| Text.DigitsOnlyAppend | src/composables/useRegisterForm.ts:79-80 | stripping distributes over concatenation |
| Text.DigitsOnlyIdempotent | src/composables/useRegisterForm.ts:79-80 | stripping twice is stripping once |
| Text.Trim | src/utils/validators.ts:12 | `trim()`: the result is a contiguous part of the input with only white space before and after it; it neither starts nor ends with white space, and it is empty exactly when the input is all white space |
| Text.TrimPadded | src/utils/validators.ts:12 | white space put around a string that neither starts nor ends with white space is exactly what trimming removes |
| Text.TrimIdempotent | src/utils/validators.ts:12 | trimming twice is trimming once |
| Text.Split | src/store/useAuthStore.ts:64 | `split(" ")`: at least one piece, and no piece holds the separator |
| Text.JoinSplit | src/store/useAuthStore.ts:64-66 | joining the pieces of a split with the same separator gives the string back |
| Text.SplitFirstWord | src/store/useAuthStore.ts:64 | a separator-free first word is the first piece, followed by the pieces of the rest |
| Text.UpperChar | src/store/useAuthStore.ts:67 | one character of `toUpperCase()`: a–z and the Latin-1 small letters move 32 code points down, "µ" becomes "Μ", "ÿ" becomes "Ÿ", everything else is kept |
| Text.Upper | src/store/useAuthStore.ts:67 | `toUpperCase()` keeps the length and maps each character on its own |
| Storage.Lookup | src/services/authService.ts:54-55 | `getItem`: present exactly when the key is stored, with the stored value |
| Storage.LocalStorage.SetItem | src/services/authService.ts:46 | one key written, every other entry kept |
| Storage.LocalStorage.RemoveItem | src/services/authService.ts:64 | exactly that key removed |
| Users.Quote | src/store/useAuthStore.ts:88 | a JSON string literal, delimited by quotes (its contents are pinned by `Users.QuoteRoundTrip`) |
| Users.UnescapeEscape | src/store/useAuthStore.ts:88 | decoding the escaped text as a JSON string body gives exactly the original characters |
| Users.QuoteRoundTrip | src/store/useAuthStore.ts:88 | `JSON.parse` of the written literal gives the original string back, so every property value is stored exactly |
| Users.Stringify | src/store/useAuthStore.ts:88 | the serialised user is always an object text `{...}`, so never empty and always truthy |
| Api.Authorize | src/services/api.ts:30-33 | a bearer header `"Bearer " + token` exactly when a non-empty token is stored; otherwise the headers are untouched; no other header changes |
| Api.BearerCarriesToken | src/services/api.ts:32 | the header is the prefix followed by exactly the stored token |
| Api.ResponseMessage | src/services/api.ts:82 | falls back from `data.error.message` to `data.message` to "Erro no servidor"; never empty |
| Api.ResponseCode | src/services/api.ts:83 | falls back from `data.error.code` to "SERVER_ERROR"; never empty |
| Api.Classify | src/services/api.ts:44-117 | storage cleared iff 401; toast and push to "/login" iff 401 away from "/" and "/login"; one toast on 500 and on 503 with their own titles; no toast for other statuses; the status is kept; the message "Serviço indisponível. Verifique se o BFF está rodando." and 503/SERVICE_UNAVAILABLE with one "Conexão perdida" toast without a response; 500/REQUEST_ERROR with `error.message` otherwise |
| Api.RejectionAlwaysCoded | src/services/api.ts:80-116 | every rejection carries a code, and without a response the status is 500 or 503 |
| Api.NoticeToastsAppend | src/store/useToastStore.ts:18-26 | toasts shown one after another take consecutive ids: two batches equal one batch of both |
| Api.ShowNotice | src/composables/useToast.ts:31-37 | `toast.error(title, message)` appends one error toast with the next id and the default duration, and schedules its removal |
| Api.Reject | src/services/api.ts:44-117 | the error handler as it runs: rejects with `Classify`'s error and performs exactly its storage, toast and router effects |
| AuthService.WithToken | src/services/authService.ts:45-47 | the token is written only when truthy; no other key changes |
| AuthService.WithUser | src/services/authService.ts:48-50 | the serialised user is written only when there is a user; no other key changes |
| AuthService.WithAuthData | src/services/authService.ts:44-51 | each key written only when its part is truthy, left as it was otherwise; every other key unchanged |
| AuthService.WithoutAuthData | src/services/authService.ts:63-66 | exactly the two session keys removed, every other entry kept |
| AuthService.SetAuthData | src/services/authService.ts:44-51 | storage becomes `WithAuthData` of the old storage |
| AuthService.ClearAuthData | src/services/authService.ts:63-66 | storage becomes `WithoutAuthData` of the old storage |
| AuthService.GetAuthData | src/services/authService.ts:53-61 | the stored token as it is, or null; a user exactly when a non-empty user string is stored, and then exactly what parsing that string gives; throws exactly when that string does not parse |
| AuthService.IsAuthenticated | src/services/authService.ts:68-71 | true iff a non-empty token and a non-empty user string are stored; throws exactly when the user string does not parse |
| AuthService.ClearedIsAnonymous | src/services/authService.ts:63-71 | after clearing, the check is false and cannot throw |
| AuthService.SetThenGet | src/services/authService.ts:44-71 | after writing a token and a user, reading back gives them; the session counts as authenticated and the guard lets it in |
| AuthService.ClearedIsTurnedAway | src/router/index.ts:32-35 | after clearing, "/home" redirects to "/" |
| Routing.OnlyHomeProtected | src/router/index.ts:7-24 | `to.meta.requiresAuth` holds exactly for the paths vue-router matches to "/home": that path with or without one trailing slash, in any letter case |
| Routing.HomeSpellingsProtected | src/router/index.ts:19-23 | "/home", "/home/", "/HOME" and "/Home/" all reach the protected route |
| Routing.HomeNeighboursOpen | src/router/index.ts:19-23 | "/home//" and "/homes" match no protected route |
| Routing.Guard | src/router/index.ts:31-39 | unprotected routes are always allowed; a protected one redirects to "/" iff no non-empty user is stored; the only verdicts are allow and "/" |
| Routing.GuardIgnoresToken | src/router/index.ts:32 | storing, changing or removing the token never changes the verdict |
| Api.LoginPathUnrouted | src/services/api.ts:62 | the "/login" a 401 pushes matches none of the three routes |
| Routing.Router.Push | src/services/api.ts:62 | the navigation is recorded; the current path is unchanged |
| Toasts.EffectiveDuration | src/store/useToastStore.ts:23 | an absent or zero duration becomes 5000, any other is kept; never zero |
| Toasts.Without | src/store/useToastStore.ts:37-42 | the toasts without the given id; never longer |
| Toasts.WithoutMembers | src/store/useToastStore.ts:37-42 | a toast survives exactly when it was there and has another id |
| Toasts.WithoutAbsent | src/store/useToastStore.ts:39 | removing an id that no toast carries changes nothing |
| Toasts.WithoutSplice | src/store/useToastStore.ts:38-40 | in an ascending list, removing an id is splicing out the one toast at its index |
| Toasts.WithoutAscending | src/store/useToastStore.ts:37-42 | removal keeps the ids ascending |
| Toasts.ExpiryUndoesShow | src/store/useToastStore.ts:28-32 | a toast's own timer returns the list to what it was before it was shown |
| Toasts.ToastStore.constructor | src/store/useToastStore.ts:15-16 | an empty list, counter at 0, no timers |
| Toasts.ToastStore.ShowToast | src/store/useToastStore.ts:18-35 | the next id is taken and returned; one toast with the defaulted duration is appended after the others; a removal is scheduled iff that duration is positive; ids stay unique, ascending and at most the counter |
| Toasts.ToastStore.RemoveToast | src/store/useToastStore.ts:37-42 | the search loop and splice leave exactly `Without(old list, id)`; a no-op when the id is absent; the counter and timers are untouched |
| Toasts.ToastStore.ClearToasts | src/store/useToastStore.ts:44-46 | the list is emptied; the counter is not reset, so later ids keep increasing |
| Toasts.ToastStore.Success | src/store/useToastStore.ts:48-54 | a "success" toast, as `ShowToast` |
| Toasts.ToastStore.Error | src/store/useToastStore.ts:56-62 | an "error" toast, as `ShowToast` |
| Toasts.ToastStore.Warning | src/store/useToastStore.ts:64-70 | a "warning" toast, as `ShowToast` |
| Toasts.ToastStore.Info | src/store/useToastStore.ts:72-74 | an "info" toast, as `ShowToast` |
| Toasts.ShowExpireClearShow | src/store/useToastStore.ts:16-46 | show, expire, clear, show: the list holds only the last toast, whose id is two past the starting counter |
| UseToast.KindOrInfo | src/composables/useToast.ts:16 | no type means "info"; a given type is kept |
| UseToast.Toast | src/composables/useToast.ts:14-21 | shows a toast of the defaulted type, passing title, message and duration through |
| UseToast.Success | src/composables/useToast.ts:23-29 | returns the store's id of a new "success" toast |
| UseToast.Error | src/composables/useToast.ts:31-37 | returns the store's id of a new "error" toast |
| UseToast.Warning | src/composables/useToast.ts:39-45 | returns the store's id of a new "warning" toast |
| UseToast.Info | src/composables/useToast.ts:47-49 | returns the store's id of a new "info" toast |
| UseToast.Dismiss | src/composables/useToast.ts:51-53 | exactly `removeToast` |
| UseToast.Clear | src/composables/useToast.ts:55-57 | the list is left empty; counter and timers unchanged |
| Validators.ValidateEmail | src/utils/validators.ts:1-4 | a match implies an '@' and a '.' |
| Validators.ValidateEmailCharacterised | src/utils/validators.ts:1-4 | accepted iff there is exactly one '@', no white space, a non-empty local part, and a '.' in the domain that is neither its first nor its last character |
| Validators.ValidatePhone | src/utils/validators.ts:6-9 | accepting needs at least ten characters; for a digit-only string, accepted iff it has 10 or 11 digits |
| Validators.ValidatePhoneSeesOnlyDigits | src/utils/validators.ts:6-9 | the verdict on a phone number is the verdict on its digits alone |
| Validators.ValidatePhoneIgnoresMask | src/utils/validators.ts:6-9 | the phone mask never changes the verdict |
| Validators.ValidateRequired | src/utils/validators.ts:11-13 | true iff some character is not white space |
| Validators.ValidateMinLength | src/utils/validators.ts:15-17 | compares the trimmed length with `>=`: without padding iff the length is at least `min`; passing implies the raw length is at least `min`; minimum 1 is `validateRequired` |
| Validators.ValidateMaxLength | src/utils/validators.ts:19-21 | compares the trimmed length with `<=`: without padding iff the length is at most `max`; never passes a negative maximum |
| Validators.MinLengthOfPadded | src/utils/validators.ts:15-17 | white space around a value never counts: a padded value passes iff the value itself has at least `min` characters |
| Validators.MaxLengthOfPadded | src/utils/validators.ts:19-21 | white space around a value never counts: a padded value passes iff the value itself has at most `max` characters |
| Validators.ValidateAge | src/utils/validators.ts:28-41 | the year difference, less one before this year's birthday, is at least `minAge` iff the `minAge`-th birthday is on or before today |
| Validators.ValidateAdult | src/utils/validators.ts:28 | `minAge` defaults to 18 |
| Formatters.FirstDigitRun | src/utils/formatters.ts:3 | the leftmost position where eleven digits start, or none |
| Formatters.FormatCpf | src/utils/formatters.ts:1-4 | empty stays empty; without an eleven-digit run the input is returned unchanged; otherwise three characters longer |
| Formatters.FormatPhone | src/utils/formatters.ts:6-9 | empty stays empty; without an eleven-digit run the input is returned unchanged; otherwise four characters longer |
| Formatters.FormatCpfOfDigits | src/utils/formatters.ts:3 | eleven digits become "ddd.ddd.ddd-dd" (length 14), and removing the punctuation gives them back |
| Formatters.FormatPhoneOfDigits | src/utils/formatters.ts:8 | eleven digits become "(dd) ddddd-dddd" (length 15), and removing the punctuation gives them back |
| Formatters.CpfMaskShaped | src/utils/formatters.ts:3 | the CPF mask puts '.', '.', '-' at 3, 7 and 11 and digits elsewhere |
| Formatters.CpfMaskDigits | src/utils/formatters.ts:3 | the CPF mask keeps the eleven digits in order |
| Formatters.PhoneMaskShaped | src/utils/formatters.ts:8 | the phone mask puts '(', ')', ' ', '-' at 0, 3, 4 and 10 and digits elsewhere |
| Formatters.PhoneMaskDigits | src/utils/formatters.ts:8 | the phone mask keeps the eleven digits in order |
| Formatters.FormatCpfRewritesFirstRun | src/utils/formatters.ts:3 | only the leftmost run is rewritten; the text before and after it is untouched |
| Formatters.FormatPhoneRewritesFirstRun | src/utils/formatters.ts:8 | only the leftmost run is rewritten; the text before and after it is untouched |
| Formatters.ReplaceRunKeepsDigits | src/utils/formatters.ts:3 | replacing a run by text with the same digits keeps the digits of the whole |
| Formatters.FormatCpfKeepsDigits | src/utils/formatters.ts:3 | formatting any input keeps its digits, in order |
| Formatters.FormatPhoneKeepsDigits | src/utils/formatters.ts:8 | formatting any input keeps its digits, in order |
| Formatters.FormatCpfIdempotentOnDigits | src/utils/formatters.ts:1-4 | formatting a formatted CPF changes nothing |
| RegisterSchema.Violations | src/modules/createAccount/validation/registerSchema.ts:17-44 | a field is rejected iff its rule fails: required name, e-mail and password; CPF of length 14; phone of length at least 14; a listed country; password 6 to 8; advisor name required iff the flag is set |
| RegisterSchema.AcceptedForm | src/modules/createAccount/validation/registerSchema.ts:18-43 | what an accepted form has: CPF of 14, phone of at least 14, a listed country, a 6 to 8 character password, a name, an e-mail, and an advisor name when flagged |
| RegisterSchema.AdvisorNameIgnoredWithoutAdvisor | src/modules/createAccount/validation/registerSchema.ts:39-43 | without the flag the advisor's name plays no part |
| RegisterSchema.MaskedInputsMeetSchema | src/modules/createAccount/validation/registerSchema.ts:22-24 | a CPF and phone formatted from eleven digits satisfy the length rules |
| RegisterSchema.BareCpfRejected | src/modules/createAccount/validation/registerSchema.ts:22 | eleven bare digits fail the CPF rule |
| RegisterForm.ElevenDigits | src/composables/useRegisterForm.ts:38-42 | the "cpf" and "phone" tests pass iff eleven digits remain after stripping |
| RegisterForm.ElevenDigitsIgnoresMasks | src/composables/useRegisterForm.ts:38-49 | the masks never change the tests' verdict |
| RegisterForm.FormPhoneIsValidPhone | src/composables/useRegisterForm.ts:46-50 | a phone the form accepts passes `validatePhone` too |
| RegisterForm.FormViolations | src/composables/useRegisterForm.ts:29-63 | a field is rejected iff its rule fails: required name, e-mail and country; eleven-digit CPF and phone; password 6 to 8; advisor name required iff the flag is set |
| RegisterForm.FormAcceptedMeans | src/composables/useRegisterForm.ts:29-63 | what an accepted form has: eleven-digit CPF and phone, a 6 to 8 character password, a name, an e-mail, a country, and an advisor name when flagged |
| RegisterForm.PasswordAndAdvisorRulesAgree | src/composables/useRegisterForm.ts:52-62 | the form and the declarative schema agree on name, password and advisor name |
| RegisterForm.FormAcceptsUnlistedCountry | src/composables/useRegisterForm.ts:51 | the form lets through every non-empty country outside the list, which the declarative schema rejects |
| RegisterForm.MaskedDigitsPassBoth | src/composables/useRegisterForm.ts:35-42 | masked eleven digits pass both rule sets; bare ones pass the form only |
| RegisterForm.RegisterPayload | src/composables/useRegisterForm.ts:77-81 | CPF and phone sent as exactly their digits, in order; every other field unchanged |
| RegisterForm.AcceptedFormSendsElevenDigits | src/composables/useRegisterForm.ts:77-81 | an accepted form sends eleven-digit CPF and phone |
| RegisterForm.RegisterPayloadIgnoresMasks | src/composables/useRegisterForm.ts:79-80 | masked or bare input sends the same registration |
| RegisterForm.LoginPayload | src/composables/useRegisterForm.ts:151-154 | CPF sent as exactly its digits, in order; password unchanged |
| RegisterForm.LoginPayloadIgnoresMask | src/composables/useRegisterForm.ts:152 | a masked or bare CPF signs in the same way |
| RegisterForm.ShowSuccess | src/composables/useRegisterForm.ts:87-90 | one success toast appended with the next id and the default duration, and its removal scheduled |
| RegisterForm.RegisterFormState.constructor | src/composables/useRegisterForm.ts:26-27 | `isSuccess` false, no user data |
| RegisterForm.RegisterFormState.SubmitForm | src/composables/useRegisterForm.ts:73-107 | the session store settles the registration (user, token, error, `isLoading`, storage) and the interceptor's redirect is pushed; on success the returned user is kept, `isSuccess` is set and the success toast and its timer follow; on failure both are unchanged, and the store's toasts and timers are followed by a second error toast with the store's message, all with consecutive ids |
| RegisterForm.RegisterFormState.Conclude | src/composables/useRegisterForm.ts:83-100 | the success or failure reaction to the store's result, stated from before the store's own toasts: one success toast, or those toasts followed by the second error toast |
| RegisterForm.SubmitLogin | src/composables/useRegisterForm.ts:149-172 | the session store settles the sign-in (user, token, error, `isLoading`, storage); on success a welcome toast and its timer, and exactly "/home" pushed; on failure the store's toasts and timers are followed by a second error toast with the store's message, all with consecutive ids, and only the interceptor's redirect is pushed |
| RegisterForm.Greet | src/composables/useRegisterForm.ts:156-165 | the welcome and the push to "/home", or the second error toast after the store's toasts, stated from before the store's own toasts |
| Auth.SignedIn | src/store/useAuthStore.ts:58 | `isAuthenticated` iff the token is a non-empty string |
| Auth.DisplayName | src/store/useAuthStore.ts:59 | the user's name, or "Usuário"; never empty |
| Auth.DisplayAccount | src/store/useAuthStore.ts:60 | the account number, or "00000000-0"; never empty |
| Auth.Heads | src/store/useAuthStore.ts:65-66 | at most one character per piece |
| Auth.HeadsOfOne | src/store/useAuthStore.ts:65-66 | one piece gives its first character, or nothing when it is empty |
| Auth.HeadsAppend | src/store/useAuthStore.ts:65-66 | the heads of two runs of pieces are the heads of the first followed by those of the second |
| Auth.Take | src/store/useAuthStore.ts:68 | `slice(0, n)`: the prefix of exactly `n` characters, or the whole string when it is shorter |
| Auth.Initials | src/store/useAuthStore.ts:61-69 | at most two characters |
| Auth.GuestInitials | src/store/useAuthStore.ts:62-68 | without a name the initials are "U" |
| Auth.InitialsOfOneWord | src/store/useAuthStore.ts:61-69 | a one-word name gives its first letter, upper-cased |
| Auth.InitialsOfFullName | src/store/useAuthStore.ts:61-69 | a name of several words gives the upper-cased first letters of the first two |
| Auth.Settle | src/store/useAuthStore.ts:71-147 | success iff a success envelope with data; then the data, no error, no toast. On a failure envelope: the message or the default, one toast. On a throw: the interceptor's toasts, then one toast with the rejection's message or the default, plus its storage and redirect effects. The error is never empty |
| Auth.ServerMessageWins | src/store/useAuthStore.ts:98-104 | after an error response the server's message (via the interceptor's fallback) reaches the caller, never the store's default |
| Auth.LoginMirrorsRegister | src/store/useAuthStore.ts:110-147 | `register` has the same branches and effects as `login`; only the wording of its own toast differs |
| Auth.WithSession | src/store/useAuthStore.ts:87-88 | token and serialised user written, nothing else touched |
| Auth.SessionIsAuthData | src/store/useAuthStore.ts:87-88 | with a non-empty token the store writes what `setAuthData` would |
| Auth.Load | src/store/useAuthStore.ts:160-174 | nothing happens unless both keys are non-empty; then the parsed user and the token, or corrupt exactly when parsing throws |
| Auth.LoadAgreesWithService | src/store/useAuthStore.ts:160-174 | a session is restored iff `authService.isAuthenticated` is true; corrupt storage is where that check would throw |
| Auth.ReloadRestoresSession | src/store/useAuthStore.ts:160-169 | reloading right after a sign-in restores that user and token, when parsing undoes serialising |
| Auth.AuthStore.constructor | src/store/useAuthStore.ts:51-54 | no user, no token, not loading, no error |
| Auth.AuthStore.Authenticate | src/store/useAuthStore.ts:71-108 | runs one call to the end exactly as `Settle` says: fields, storage, toasts, timers and pushes; `isLoading` is false afterwards |
| Auth.AuthStore.TakeSession | src/store/useAuthStore.ts:83-90 | user and token from the answer, and in storage |
| Auth.AuthStore.Fail | src/store/useAuthStore.ts:98-104 | the interceptor's effects, then the store's message and toast; session fields untouched |
| Auth.AuthStore.Refuse | src/store/useAuthStore.ts:92-96 | the error set and exactly one error toast; session fields untouched |
| Auth.AuthStore.Login | src/store/useAuthStore.ts:71-108 | `Settle` with the login wording |
| Auth.AuthStore.Register | src/store/useAuthStore.ts:110-147 | `Settle` with the registration wording |
| Auth.AuthStore.Logout | src/store/useAuthStore.ts:149-158 | always ends with no user, no token and both keys removed, `isLoading`, `error` and the current path unchanged; a successful call shows and pushes nothing; a failed call adds the interceptor's toasts and redirect and then "Erro no logout", with consecutive ids and their timers |
| Auth.AuthStore.LoadFromStorage | src/store/useAuthStore.ts:160-174 | what `Load` finds: left alone, restored, or cleared on a parse failure; never a crash |
| Auth.AuthStore.ClearAuth | src/store/useAuthStore.ts:176-181 | no user, no token, both keys removed, other keys kept |
| Auth.EmptyTokenSignIn | src/store/useAuthStore.ts:83-90 | a sign-in answered with an empty token stores the user, so the guard admits "/home" while `isAuthenticated` is false and no bearer header is sent |
| Auth.SignInThenReload | src/store/useAuthStore.ts:160-169 | a successful sign-in with a non-empty token survives a reload into a fresh store |

## Left out

- The Axios transport, real HTTP, the 15-second timeout and promise scheduling (src/services/api.ts:14-20). Each call's outcome is an input.
- The success path of the response interceptor, `response.data`, is modelled only as the `Delivered` outcome.
- Timers are recorded, not run. Toast expiry is a `Timer` entry plus a later `RemoveToast` (`Toasts.ExpiryUndoesShow`).
- RegisterForm.RegisterFormState.SubmitForm: the `router.push("/home")` that runs 2 seconds after a successful registration is not modelled, because it is timer-driven.
- The `catch` branches of `submitForm` and `submitLogin` are not modelled. The store's `login` and `register` catch every error themselves, so those branches cannot run.
- `goToHome`, the form's `isLoading` mirror, and vee-validate's `handleSubmit` and error messages are not modelled. The form is submitted only when its rules pass, so `FormViolations` is the precondition a caller would check.
- RegisterForm.FormViolations: yup's `email()` format rule is not modelled; the e-mail is only required to be non-empty.
- RegisterSchema.Violations: yup's `email()` format rule is not modelled; the e-mail is only required to be non-empty.
- Users.Stringify: JSON.stringify is written out for the user record with the standard escapes. About the whole text only "non-empty object text" is stated; each string inside it is read back exactly (`Users.QuoteRoundTrip`). Lone surrogates cannot occur in the model's strings.
- Users.Unquote: a `\u` escape of a surrogate is refused rather than paired with its partner; `Quote` never writes one.
- Routing.Guard: paths are compared as vue-router receives them in `to.path`; percent-encoding is not modelled.
- Toasts.EffectiveDuration, Toasts.ToastStore.ShowToast: a toast's `duration` is a whole number. JavaScript numbers may also be fractional or NaN; the program passes only whole durations.
- Validators.ValidateMinLength, Validators.ValidateMaxLength: `min` and `max` are whole numbers; a fractional or NaN bound is not modelled. The program passes only whole bounds.
- Validators.ValidateAge: `minAge` and the date parts are whole numbers; fractional or NaN values are not modelled.
- `JSON.parse` is the parameter `parse`. The non-object results it could give, such as `null` from the text "null", are not modelled.
- `validateDate` is not modelled, because it parses dates.
- `validateAge` gets today's date as a parameter instead of reading the clock.
- Auth.Initials: `toUpperCase` is modelled for ASCII and Latin-1 characters only, "µ" and "ÿ" included. `"ß"` becomes the two letters `"SS"` in JavaScript, and letters outside Latin-1 have their own capitals; neither is modelled. Indexing and `slice` count UTF-16 code units in JavaScript and characters here. The two differ only outside the Basic Multilingual Plane.
- Lengths in the validators and schemas are counted in characters, not UTF-16 code units.
- Console logging.
- The network methods of `authService` (src/services/authService.ts:4-42), `dashboardService`, `userService` and `dashboardStore` are not modelled. They pass data along without logic of their own.
- Auth.RegisterData: the optional `hasAdvisor` and `advisorName` of a registration body are always present. That is how the form sends them.
- Reactivity (Pinia, Vue refs and computed values) is not modelled. The getters are functions of the fields.
- Router navigation is not modelled: `router.push` is recorded in `Router.pushed`.

## Behaviour worth knowing

Some consequences of the code that a reader may not expect:

- **Toast durations.** A toast asked to stay with duration 0 gets 5000 ms and
  expires, because `toast.duration || 5000` treats 0 as missing. A negative
  duration does stay, with no timer (`Toasts.EffectiveDuration`,
  `Toasts.ToastStore.ShowToast`).
- **Toasts on a failed sign-in or registration.** The screen shows more than
  one toast:
  - the interceptor's toast, when the failure is one it recognises;
  - the store's own toast;
  - the form's second toast with the same message (`RegisterForm.SubmitLogin`,
    `RegisterForm.RegisterFormState.SubmitForm`).
- **Error responses with other statuses.** A response with a status other
  than 401, 500 or 503 gets no toast from the interceptor (`Api.Classify`).
- **The two rule sets for registration.** The form's schema in
  `useRegisterForm.ts` and the declarative schema in `registerSchema.ts`
  differ:
  - the form counts eleven digits, while the schema wants a masked length of
    14 (CPF) and at least 14 (phone);
  - the form accepts any non-empty country, while the schema wants a listed
    one.

  `RegisterForm.FormAcceptsUnlistedCountry` and
  `RegisterForm.MaskedDigitsPassBoth` state these differences.
- **The route guard.** It checks the stored user, not the token
  (`Routing.GuardIgnoresToken`). A 401 clears both keys together. A
  sign-in answered with an empty token, however, stores that empty token and
  the user: the guard then admits "/home" while `isAuthenticated` is false and
  requests carry no bearer header (`Auth.EmptyTokenSignIn`).
- **The route table matches more than the exact path.** Under vue-router's
  defaults "/home/" and "/HOME" are the protected route too
  (`Routing.HomeSpellingsProtected`).
- **The redirect after an expired session.** The interceptor pushes
  "/login", which none of the three routes matches; the sign-in page itself
  is at "/" (`Api.LoginPathUnrouted`).
