/** The authentication service's error translation and the shape of the
    results its wrappers return. */
module AuthService {
  import opened Types

  const InvalidEmailMessage := "El correo electrónico no es válido."
  const UserDisabledMessage := "Esta cuenta ha sido deshabilitada."
  const BadCredentialsMessage := "Credenciales incorrectas. Si te registraste con Google, usa el botón de Google para entrar."
  const WrongPasswordMessage := "La contraseña es incorrecta. Si usas Google normalmente, intenta entrar con ese botón."
  const EmailInUseMessage := "Este correo ya está registrado. Si creaste la cuenta con Google, inicia sesión con el botón de Google."
  const WeakPasswordMessage := "La contraseña es demasiado débil (mínimo 6 caracteres)."
  const DifferentCredentialMessage := "Existe una cuenta con este correo vinculada a Google. Por favor, inicia sesión con Google."
  const CredentialInUseMessage := "Esta cuenta ya está vinculada a otro usuario."
  const PopupClosedMessage := "Has cerrado la ventana de inicio de sesión antes de terminar."
  const CancelledMessage := "Operación cancelada."
  const TooManyRequestsMessage := "Demasiados intentos fallidos. Por favor, inténtalo más tarde."
  const NetworkMessage := "Error de conexión. Comprueba tu internet."
  const ApiKeyMessage := "Error de configuración en la aplicación (API Key)."
  const DefaultMessage := "Ocurrió un error inesperado. Inténtalo de nuevo o usa otro método de acceso."

  /** The cases of the `switch` in `getFriendlyErrorMessage`; codes that
      share a `case` group share a kind. */
  datatype ErrorKind =
    | InvalidEmail | UserDisabled | BadCredentials | WrongPassword | EmailInUse
    | WeakPassword | DifferentCredential | CredentialInUse | PopupClosed
    | Cancelled | TooManyRequests | Network | ApiKey | Unexpected

  /** Which `case` of the `switch` a Firebase Auth error code falls into. */
  function Classify(code: string): (k: ErrorKind)
    ensures k != Unexpected ==> code in KnownCodes
  {
    if code == "auth/invalid-email" then InvalidEmail
    else if code == "auth/user-disabled" then UserDisabled
    else if code == "auth/user-not-found" || code == "auth/invalid-credential" then BadCredentials
    else if code == "auth/wrong-password" then WrongPassword
    else if code == "auth/email-already-in-use" then EmailInUse
    else if code == "auth/weak-password" then WeakPassword
    else if code == "auth/account-exists-with-different-credential" then DifferentCredential
    else if code == "auth/credential-already-in-use" then CredentialInUse
    else if code == "auth/popup-closed-by-user" then PopupClosed
    else if code == "auth/cancelled-popup-request" then Cancelled
    else if code == "auth/too-many-requests" then TooManyRequests
    else if code == "auth/network-request-failed" then Network
    else if code == "auth/api-key-not-valid.-please-pass-a-valid-api-key." || code == "auth/invalid-api-key" then ApiKey
    else Unexpected
  }

  /** The Firebase Auth error codes the `switch` lists. */
  const KnownCodes: set<string> := {
    "auth/invalid-email", "auth/user-disabled", "auth/user-not-found",
    "auth/invalid-credential", "auth/wrong-password", "auth/email-already-in-use",
    "auth/weak-password", "auth/account-exists-with-different-credential",
    "auth/credential-already-in-use", "auth/popup-closed-by-user",
    "auth/cancelled-popup-request", "auth/too-many-requests",
    "auth/network-request-failed",
    "auth/api-key-not-valid.-please-pass-a-valid-api-key.", "auth/invalid-api-key"
  }

  /** Unlisted codes fall to the `default` branch, and only they do. */
  lemma UnexpectedOnlyForUnlisted(code: string)
    ensures Classify(code) == Unexpected <==> code !in KnownCodes
  {
  }

  /** The text returned for each case. */
  function Message(k: ErrorKind): (msg: string)
    ensures |msg| > 0
  {
    match k
    case InvalidEmail => InvalidEmailMessage
    case UserDisabled => UserDisabledMessage
    case BadCredentials => BadCredentialsMessage
    case WrongPassword => WrongPasswordMessage
    case EmailInUse => EmailInUseMessage
    case WeakPassword => WeakPasswordMessage
    case DifferentCredential => DifferentCredentialMessage
    case CredentialInUse => CredentialInUseMessage
    case PopupClosed => PopupClosedMessage
    case Cancelled => CancelledMessage
    case TooManyRequests => TooManyRequestsMessage
    case Network => NetworkMessage
    case ApiKey => ApiKeyMessage
    case Unexpected => DefaultMessage
  }

  /** Distinct cases show distinct texts. */
  lemma MessageInjective(k1: ErrorKind, k2: ErrorKind)
    ensures Message(k1) == Message(k2) <==> k1 == k2
  {
  }

  /** The two codes of each shared `case` get the same kind. */
  lemma SharedCases()
    ensures Classify("auth/user-not-found") == Classify("auth/invalid-credential") == BadCredentials
    ensures Classify("auth/api-key-not-valid.-please-pass-a-valid-api-key.") == Classify("auth/invalid-api-key") == ApiKey
  {
  }

  /** `getFriendlyErrorMessage(errorCode)`: every code gets a message, the
      codes the `switch` does not list get the default one. */
  function FriendlyErrorMessage(code: string): (msg: string)
    ensures |msg| > 0
    ensures code !in KnownCodes ==> msg == DefaultMessage
  {
    Message(Classify(code))
  }

  /** Two codes get the same text exactly when they fall into the same case:
      'auth/user-not-found' with 'auth/invalid-credential', the two API-key
      codes together, and every unlisted code with the default. */
  lemma SameMessageIffSameCase(c1: string, c2: string)
    ensures FriendlyErrorMessage(c1) == FriendlyErrorMessage(c2) <==> Classify(c1) == Classify(c2)
  {
    MessageInjective(Classify(c1), Classify(c2));
  }

  /** The default text is given to exactly the codes that are not listed. */
  lemma DefaultOnlyForUnlisted(code: string)
    ensures FriendlyErrorMessage(code) == DefaultMessage <==> code !in KnownCodes
  {
    MessageInjective(Classify(code), Unexpected);
    UnexpectedOnlyForUnlisted(code);
  }

  /** The identity provider's user, by its uid. */
  type User = string

  /** `{user, error}` as the sign-in and sign-up wrappers return it. */
  datatype AuthResult = AuthResult(user: Option<User>, error: Option<string>)

  /** `signUpWithEmail`, `signInWithEmail` and `signInWithGoogle`, given the
      outcome of the Firebase call: the user, or the code of the error. */
  function WrapSignIn(call: Result<User, string>): (r: AuthResult)
    ensures call.Ok? ==> r == AuthResult(Some(call.value), None)
    ensures call.Err? ==> r.user.None? && r.error.Some? && r.error.value == FriendlyErrorMessage(call.error)
  {
    match call
    case Ok(u) => AuthResult(Some(u), None)
    case Err(code) => AuthResult(None, Some(FriendlyErrorMessage(code)))
  }

  /** `checkGoogleRedirect`: no pending redirect is neither a user nor an error. */
  function WrapRedirect(call: Result<Option<User>, string>): (r: AuthResult)
    ensures call.Ok? ==> r == AuthResult(call.value, None)
    ensures call.Err? ==> r.user.None? && r.error == Some(FriendlyErrorMessage(call.error))
  {
    match call
    case Ok(u) => AuthResult(u, None)
    case Err(code) => AuthResult(None, Some(FriendlyErrorMessage(code)))
  }

  /** `signOut`: `{error}` only. */
  function WrapSignOut(call: Option<string>): (error: Option<string>)
    ensures call.None? <==> error.None?
    ensures call.Some? ==> error == Some(FriendlyErrorMessage(call.value))
  {
    match call
    case None => None
    case Some(code) => Some(FriendlyErrorMessage(code))
  }

  /** Every wrapper reports an error exactly when the call failed, and then
      with no user. */
  lemma WrappersReportFailure(call: Result<User, string>)
    ensures WrapSignIn(call).error.None? <==> call.Ok?
    ensures WrapSignIn(call).error.Some? ==> WrapSignIn(call).user.None? && |WrapSignIn(call).error.value| > 0
  {
  }
}
