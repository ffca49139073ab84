/**
 * Sign-in, sign-out and session lookup over the authentication provider.
 * The provider's calls are outside the model: each operation receives what
 * the call produced (a result with or without an error, or a thrown value)
 * and returns either the success payload or the `AuthError` it throws.
 */
module AuthService {
  import opened Wrappers
  import opened Text

  const CodeUnknown := "auth/unknown"
  const CodeInvalidCredentials := "auth/invalid-credentials"
  const CodeEmailNotVerified := "auth/email-not-verified"
  const CodeTooManyRequests := "auth/too-many-requests"
  const CodeNetworkError := "auth/network-error"
  const CodeSignOutFailed := "auth/signout-failed"
  const CodeSessionError := "auth/session-error"

  /** The `AuthError` class: an `Error` named 'AuthError' with a message and a code. */
  datatype AuthError = AuthError(name: string, message: string, code: string)

  /** `new AuthError(message, code?)`: the code defaults to 'auth/unknown'. */
  function NewAuthError(message: string, code: Option<string>): (e: AuthError)
    ensures e.name == "AuthError" && e.message == message
    ensures code.Some? ==> e.code == code.value
    ensures code.None? ==> e.code == CodeUnknown
  {
    AuthError("AuthError", message, if code.Some? then code.value else CodeUnknown)
  }

  /** The error object the provider returns. */
  datatype ProviderError = ProviderError(message: string)

  /** What a `catch` can receive: an `AuthError`, another `Error`, or a value that is not an `Error`. */
  datatype Thrown = ThrownAuthError(authError: AuthError) | ThrownError(message: string) | ThrownNonError

  /** How the awaited provider call ended. */
  datatype Call<D> = Returned(data: D, error: Option<ProviderError>) | Threw(thrown: Thrown)

  /** The resolved value `{ data, error: null }`. */
  datatype Reply<D> = Reply(data: D, error: Option<AuthError>)

  /** A promise that resolves with a value or rejects with an `AuthError`. */
  datatype Outcome<D> = Resolved(reply: Reply<D>) | Rejected(authError: AuthError)

  /** The sign-in codes, checked in this order on the provider's message. */
  function SignInCode(message: string): (code: string)
    ensures Contains(message, "Invalid login credentials") ==> code == CodeInvalidCredentials
    ensures (!Contains(message, "Invalid login credentials") && Contains(message, "Email not confirmed"))
      ==> code == CodeEmailNotVerified
    ensures (!Contains(message, "Invalid login credentials") && !Contains(message, "Email not confirmed")
             && Contains(message, "rate limit"))
      ==> code == CodeTooManyRequests
    ensures (!Contains(message, "Invalid login credentials") && !Contains(message, "Email not confirmed")
             && !Contains(message, "rate limit"))
      ==> code == CodeUnknown
  {
    if Contains(message, "Invalid login credentials") then CodeInvalidCredentials
    else if Contains(message, "Email not confirmed") then CodeEmailNotVerified
    else if Contains(message, "rate limit") then CodeTooManyRequests
    else CodeUnknown
  }

  /** The message of a caught value, or `fallback` when it is not an `Error`. */
  function MessageOr(t: Thrown, fallback: string): string {
    match t
    case ThrownAuthError(e) => e.message
    case ThrownError(m) => m
    case ThrownNonError => fallback
  }

  /** `signIn`: a provider error is classified by its message; an `AuthError` caught is rethrown as is; anything else thrown becomes a network error. */
  function SignIn<D>(call: Call<D>): (r: Outcome<D>)
    ensures r.Resolved? <==> call.Returned? && call.error.None?
    ensures r.Resolved? ==> r.reply.data == call.data && r.reply.error.None?
    ensures call.Returned? && call.error.Some? ==>
      r == Rejected(AuthError("AuthError", call.error.value.message, SignInCode(call.error.value.message)))
    ensures call.Threw? && call.thrown.ThrownAuthError? ==> r == Rejected(call.thrown.authError)
    ensures call.Threw? && call.thrown.ThrownError? ==>
      r == Rejected(AuthError("AuthError", call.thrown.message, CodeNetworkError))
    ensures call.Threw? && call.thrown.ThrownNonError? ==>
      r == Rejected(AuthError("AuthError", "Erro desconhecido ao fazer login", CodeNetworkError))
  {
    match call
    case Returned(data, error) =>
      if error.Some? then Rejected(NewAuthError(error.value.message, Some(SignInCode(error.value.message))))
      else Resolved(Reply(data, None))
    case Threw(t) =>
      if t.ThrownAuthError? then Rejected(t.authError)
      else Rejected(NewAuthError(MessageOr(t, "Erro desconhecido ao fazer login"), Some(CodeNetworkError)))
  }

  /** Unless a ready-made `AuthError` was thrown, a failed sign-in carries one of five codes. */
  lemma SignInCodes<D>(call: Call<D>)
    requires SignIn(call).Rejected?
    requires !(call.Threw? && call.thrown.ThrownAuthError?)
    ensures SignIn(call).authError.code in
      {CodeInvalidCredentials, CodeEmailNotVerified, CodeTooManyRequests, CodeUnknown, CodeNetworkError}
  {
  }

  /** The shape shared by `signOut` and `getSession`: every failure, whatever was caught, is rewrapped with the operation's own code. */
  function Wrapped<D>(call: Call<D>, code: string, fallback: string): (r: Outcome<D>)
    ensures r.Resolved? <==> call.Returned? && call.error.None?
    ensures r.Resolved? ==> r.reply.data == call.data && r.reply.error.None?
    ensures r.Rejected? ==> r.authError.code == code && r.authError.name == "AuthError"
    ensures call.Returned? && call.error.Some? ==> r.Rejected? && r.authError.message == call.error.value.message
    ensures call.Threw? ==> r.Rejected? && r.authError.message == MessageOr(call.thrown, fallback)
  {
    match call
    case Returned(data, error) =>
      if error.Some? then
        // thrown inside the try, caught by its own catch and rewrapped
        var inner := NewAuthError(error.value.message, Some(code));
        Rejected(NewAuthError(inner.message, Some(code)))
      else Resolved(Reply(data, None))
    case Threw(t) => Rejected(NewAuthError(MessageOr(t, fallback), Some(code)))
  }

  /** `signOut` */
  function SignOut(call: Call<()>): (r: Outcome<()>)
    ensures r.Rejected? <==> !(call.Returned? && call.error.None?)
    ensures r.Rejected? ==> r.authError.code == CodeSignOutFailed
    ensures r.Resolved? ==> r.reply.error.None?
  {
    Wrapped(call, CodeSignOutFailed, "Erro ao fazer logout")
  }

  /** `getSession` */
  function GetSession<D>(call: Call<D>): (r: Outcome<D>)
    ensures r.Rejected? <==> !(call.Returned? && call.error.None?)
    ensures r.Rejected? ==> r.authError.code == CodeSessionError
    ensures r.Resolved? ==> r.reply.data == call.data && r.reply.error.None?
  {
    Wrapped(call, CodeSessionError, "Erro ao obter sessão")
  }

  /** Even an `AuthError` with its own code, when caught by `signOut` or `getSession`, comes out with that operation's code and the same message. */
  lemma RewrapOverridesCode(e: AuthError)
    ensures SignOut(Threw(ThrownAuthError(e))) == Rejected(AuthError("AuthError", e.message, CodeSignOutFailed))
    ensures GetSession<()>(Threw(ThrownAuthError(e))) == Rejected(AuthError("AuthError", e.message, CodeSessionError))
  {
  }

  /** A message naming two conditions gets the code of the one checked first. */
  lemma InvalidCredentialsTakesPriority(m: string)
    requires Contains(m, "Invalid login credentials") && Contains(m, "rate limit")
    ensures SignInCode(m) == CodeInvalidCredentials
  {
  }

  /** A provider message that names both conditions, and the code it gets. */
  lemma {:induction false} BothConditionsExample()
    ensures var m := "Invalid login credentials; rate limit reached";
      Contains(m, "Invalid login credentials") && Contains(m, "rate limit")
      && SignInCode(m) == CodeInvalidCredentials
  {
    var m := "Invalid login credentials; rate limit reached";
    assert m[0..25] == "Invalid login credentials";
    assert OccursAt(m, "Invalid login credentials", 0);
    assert m[27..37] == "rate limit";
    assert OccursAt(m, "rate limit", 27);
  }
}
