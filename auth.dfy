/**
 * The input handling of `signUp` and `signIn` in contexts/auth-context.tsx:
 * the guards checked before the backend is called, the normalised e-mail and
 * user name sent to it, and the `{user, error}` reply that is returned instead
 * of throwing. The authentication backend is a function parameter.
 */
module Auth {
  import opened Wrappers
  import JsText

  const RequiredMessage := "Alle felter er påkrevd"
  const ShortPasswordMessage := "Passordet må være minst 6 tegn"
  const MinPasswordLength := 6

  /** What the backend's sign-up receives: the e-mail, the password and the profile data. */
  datatype SignUpRequest = SignUpRequest(email: string, password: string, username: string, full_name: string)

  /** What the backend's sign-in receives. */
  datatype SignInRequest = SignInRequest(email: string, password: string)

  /** The backend's answer: the user it created or found, and its error if any. */
  datatype BackendReply = BackendReply(user: Option<string>, error: Option<string>)

  /** The `{ user, error }` object both operations resolve to. */
  datatype AuthResponse = AuthResponse(user: Option<string>, error: Option<string>)

  /** `email.trim().toLowerCase()`. */
  function CleanEmail(email: string): (clean: string)
    ensures |clean| <= |email|
    ensures clean == [] || (!JsText.IsWhitespace(clean[0]) && !JsText.IsWhitespace(clean[|clean| - 1]))
  {
    var t := JsText.Trim(email);
    JsText.TrimShape(email);
    JsText.LowerKeepsWhitespace(if t == [] then ' ' else t[0]);
    JsText.LowerKeepsWhitespace(if t == [] then ' ' else t[|t| - 1]);
    JsText.ToLower(t)
  }

  /** Cleaning a cleaned e-mail changes nothing. */
  lemma CleanEmailIdempotent(email: string)
    ensures CleanEmail(CleanEmail(email)) == CleanEmail(email)
  {
    var c := CleanEmail(email);
    JsText.TrimStartIdempotent(c);
    JsText.TrimEndIdempotent(c);
    assert JsText.Trim(c) == c;
    JsText.ToLowerIdempotent(JsText.Trim(email));
  }

  /** The guard `signUp` runs before any backend call: emptiness first, then password length. */
  function SignUpGuard(email: string, password: string, username: string): (message: Option<string>)
    ensures (email == [] || password == [] || username == []) ==> message == Some(RequiredMessage)
    ensures message.None? <==> email != [] && username != [] && |password| >= MinPasswordLength
  {
    if email == [] || password == [] || username == [] then Some(RequiredMessage)
    else if |password| < MinPasswordLength then Some(ShortPasswordMessage)
    else None
  }

  /** The request `signUp` sends: cleaned e-mail, and the trimmed user name as both user name and full name. */
  function SignUpRequestFor(email: string, password: string, username: string): (request: SignUpRequest)
    ensures request.email == CleanEmail(email) && request.password == password
    ensures request.username == request.full_name == JsText.Trim(username)
  {
    var name := JsText.Trim(username);
    SignUpRequest(CleanEmail(email), password, name, name)
  }

  /** A backend reply turned into the returned object: an error means no user. */
  function Settle(reply: BackendReply): (response: AuthResponse)
    ensures reply.error.Some? ==> response == AuthResponse(None, reply.error)
    ensures reply.error.None? ==> response == AuthResponse(reply.user, None)
  {
    if reply.error.Some? then AuthResponse(None, reply.error) else AuthResponse(reply.user, None)
  }

  /** `signUp`: a guard failure is returned as the error; otherwise the backend's reply is settled. */
  function SignUp(email: string, password: string, username: string, backend: SignUpRequest -> BackendReply): (response: AuthResponse)
    ensures response.error.Some? ==> response.user.None?
    ensures SignUpGuard(email, password, username).Some? ==>
      response == AuthResponse(None, SignUpGuard(email, password, username))
    ensures SignUpGuard(email, password, username).None? ==>
      response == Settle(backend(SignUpRequestFor(email, password, username)))
  {
    var guard := SignUpGuard(email, password, username);
    if guard.Some? then AuthResponse(None, guard)
    else Settle(backend(SignUpRequestFor(email, password, username)))
  }

  /** `signIn`: no guard; the cleaned e-mail and the password go to the backend. */
  function SignIn(email: string, password: string, backend: SignInRequest -> BackendReply): (response: AuthResponse)
    ensures response.error.Some? ==> response.user.None?
    ensures response == Settle(backend(SignInRequest(CleanEmail(email), password)))
  {
    Settle(backend(SignInRequest(CleanEmail(email), password)))
  }

  /** A failed guard decides the answer whatever the backend would have said. */
  lemma GuardPrecedesBackend(email: string, password: string, username: string,
                             b1: SignUpRequest -> BackendReply, b2: SignUpRequest -> BackendReply)
    requires SignUpGuard(email, password, username).Some?
    ensures SignUp(email, password, username, b1) == SignUp(email, password, username, b2)
    ensures SignUp(email, password, username, b1).user.None?
  {
  }

  /** A short password is reported only when no field is empty. */
  lemma ShortPasswordAfterEmptiness(email: string, password: string, username: string)
    ensures SignUpGuard(email, password, username) == Some(ShortPasswordMessage) <==>
      email != [] && username != [] && 0 < |password| < MinPasswordLength
  {
  }

  /** Signing in with an address and with its cleaned form sends the same request. */
  lemma SignInNormalises(email: string, password: string, backend: SignInRequest -> BackendReply)
    ensures SignIn(CleanEmail(email), password, backend) == SignIn(email, password, backend)
  {
    CleanEmailIdempotent(email);
  }

  /** A user name of spaces passes the guard, and the backend then receives an empty name. */
  lemma BlankUsernamePasses(email: string, password: string)
    requires email != [] && |password| >= MinPasswordLength
    ensures SignUpGuard(email, password, "   ").None?
    ensures SignUpRequestFor(email, password, "   ").username == ""
  {
    assert JsText.TrimStart("   ") == JsText.TrimStart("  ") == JsText.TrimStart(" ") == "";
  }
}
