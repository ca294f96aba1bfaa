/**
 * The server actions for signing in, signing up and signing out
 * (lib/auth-action.ts): the checks on the form fields and how the auth
 * service's answers become the result the page shows.
 *
 * The auth and profile calls are not run; what they return is given as
 * parameters. `redirect("/mainpos")` is the result `Redirected`.
 */
module AuthAction {
  import opened Wrappers
  import Text

  /** What an action hands back: an error (with a type tag for a known address), success, or a redirect. */
  datatype ActionResult = Failure(error: string, kind: Option<string>) | Success | Redirected(path: string)

  const Required := "Email and password are required"
  const WrongCredentials := "Wrong email or password"
  const ConfirmEmail := "Please confirm your email before logging in"
  const Deactivated := "Your account has been deactivated. Please contact support."
  const AllRequired := "All fields are required"
  const PasswordTooShort := "Password must be at least 8 characters long"
  const LoginInstead := "This email is already registered. Please login instead."
  const SignupFailed := "Signup failed. Please try again."
  const SignoutFailed := "Failed to sign out. Please try again."

  /** `formData.get(name)`: `None` when the field is absent. A field counts only when non-empty. */
  predicate Present(v: Option<string>) {
    v.Some? && v.value != ""
  }

  // ---------------------------------------------------------------------------
  // login

  /** What `signInWithPassword` returns: an error message, or data with or without a user id. */
  datatype SignInReply = SignInError(message: string) | SignInData(user: Option<string>)

  /** A `profiles` row as selected; `isActive` is `None` when the column is null or missing. */
  datatype Profile = Profile(isActive: Option<bool>)

  /** The profile lookup: a row (or none) with an optional error, or an exception. */
  datatype ProfileReply = ProfileAnswer(profile: Option<Profile>, lookupError: Option<string>) | ProfileThrew

  /** A login's result and whether it signed the user out again. */
  datatype LoginRun = LoginRun(result: ActionResult, signedOut: bool)

  /** The message for a sign-in error, in the order of the checks. */
  function SignInErrorMessage(message: string): string {
    if Text.Contains(message, "Invalid login credentials") then WrongCredentials
    else if Text.Contains(message, "Email not confirmed") then ConfirmEmail
    else WrongCredentials
  }

  /**
   * `login`. `signOutThrows` says whether the `signOut` call for a
   * deactivated profile throws; it sits inside the same `try`, so its
   * exception is swallowed and the login succeeds.
   */
  function Login(email: Option<string>, password: Option<string>, signIn: SignInReply, profile: ProfileReply,
                 signOutThrows: bool): LoginRun {
    if !Present(email) || !Present(password) then LoginRun(Failure(Required, None), false)
    else
      match signIn
      case SignInError(m) => LoginRun(Failure(SignInErrorMessage(m), None), false)
      case SignInData(user) =>
        if user.None? then LoginRun(Failure(WrongCredentials, None), false)
        else
          match profile
          case ProfileThrew => LoginRun(Success, false)
          case ProfileAnswer(p, _) =>
            if p.Some? && p.value.isActive == Some(false) then
              LoginRun(if signOutThrows then Success else Failure(Deactivated, None), true)
            else LoginRun(Success, false)
  }

  /**
   * Without both fields there is no sign-in attempt and the result is the
   * required-fields error, whatever the auth service would have said.
   */
  lemma LoginNeedsBothFields(email: Option<string>, password: Option<string>,
                             signIn: SignInReply, signIn2: SignInReply, profile: ProfileReply, profile2: ProfileReply,
                             signOutThrows: bool, signOutThrows2: bool)
    requires !Present(email) || !Present(password)
    ensures Login(email, password, signIn, profile, signOutThrows) == LoginRun(Failure(Required, None), false)
    ensures Login(email, password, signIn, profile, signOutThrows) == Login(email, password, signIn2, profile2, signOutThrows2)
  {
  }

  /**
   * A sign-in error reads "confirm your email" exactly when its message
   * mentions "Email not confirmed" and not "Invalid login credentials";
   * every other error, like a reply without a user, reads "Wrong email or
   * password".
   */
  lemma SignInErrors(message: string)
    ensures SignInErrorMessage(message) == ConfirmEmail <==>
      (exists k :: Text.OccursAt(message, "Email not confirmed", k))
      && !(exists k :: Text.OccursAt(message, "Invalid login credentials", k))
    ensures SignInErrorMessage(message) in {ConfirmEmail, WrongCredentials}
  {
    Text.ContainsAt(message, "Email not confirmed");
    Text.ContainsAt(message, "Invalid login credentials");
  }

  /**
   * A signed-in user is signed out again exactly when the profile row says
   * `is_active` is false, and is then turned away unless the sign-out
   * throws; no row, a null flag, a lookup error or a throwing lookup all let
   * the login succeed.
   */
  lemma LoginProfileCheck(email: Option<string>, password: Option<string>, user: string, profile: ProfileReply,
                          signOutThrows: bool)
    requires Present(email) && Present(password)
    ensures var run := Login(email, password, SignInData(Some(user)), profile, signOutThrows);
      && (run.signedOut <==> profile.ProfileAnswer? && profile.profile == Some(Profile(Some(false))))
      && (run.result == Failure(Deactivated, None) <==> run.signedOut && !signOutThrows)
      && (run.result != Failure(Deactivated, None) ==> run.result == Success)
  {
  }

  /**
   * A login succeeds only for a user the sign-in returned; a sign-out comes
   * with the deactivation message, or with success when the sign-out throws.
   */
  lemma LoginSuccessNeedsUser(email: Option<string>, password: Option<string>, signIn: SignInReply, profile: ProfileReply,
                              signOutThrows: bool)
    ensures Login(email, password, signIn, profile, signOutThrows).result == Success ==>
      Present(email) && Present(password) && signIn.SignInData? && signIn.user.Some?
    ensures Login(email, password, signIn, profile, signOutThrows).signedOut ==>
      Login(email, password, signIn, profile, signOutThrows).result
        == (if signOutThrows then Success else Failure(Deactivated, None))
    ensures Login(email, password, signIn, profile, signOutThrows).result != Redirected("/mainpos")
  {
  }

  // ---------------------------------------------------------------------------
  // signup

  datatype SignupForm = SignupForm(
    firstName: Option<string>, lastName: Option<string>, email: Option<string>,
    password: Option<string>, storeName: Option<string>, phone: Option<string>)

  /** What `signUp` returns: an error message, or data whose user (if any) may list identities. */
  datatype SignUpReply = SignUpError(message: string) | SignUpData(user: Option<SignedUpUser>)

  datatype SignedUpUser = SignedUpUser(identities: Option<seq<string>>)

  /** The metadata sent with the sign-up. */
  datatype Metadata = Metadata(fullName: string, storeName: string, phone: string)

  /** `signup`'s result and the metadata it sent, if it called the auth service. */
  datatype SignupRun = SignupRun(result: ActionResult, sent: Option<Metadata>)

  function Signup(form: SignupForm, reply: SignUpReply): SignupRun {
    if !Present(form.firstName) || !Present(form.lastName) || !Present(form.email) || !Present(form.password) then
      SignupRun(Failure(AllRequired, None), None)
    else if |form.password.value| < 8 then
      SignupRun(Failure(PasswordTooShort, None), None)
    else
      var meta := Metadata(form.firstName.value + " " + form.lastName.value,
                           if Present(form.storeName) then form.storeName.value else "",
                           if Present(form.phone) then form.phone.value else "");
      match reply
      case SignUpError(m) =>
        if Text.Contains(m, "already registered") then SignupRun(Failure(LoginInstead, None), Some(meta))
        else SignupRun(Failure(if m != "" then m else SignupFailed, None), Some(meta))
      case SignUpData(user) =>
        if user.None? then SignupRun(Failure(SignupFailed, None), Some(meta))
        else if user.value.identities.Some? && |user.value.identities.value| == 0 then
          SignupRun(Failure(LoginInstead, Some("email_exists")), Some(meta))
        else SignupRun(Redirected("/mainpos"), Some(meta))
  }

  /**
   * The required fields are checked first, then the password length; only a
   * form that passes both reaches the auth service, with the full name
   * "first last" and empty strings for a missing store name or phone.
   */
  lemma SignupChecks(form: SignupForm, reply: SignUpReply)
    ensures !(Present(form.firstName) && Present(form.lastName) && Present(form.email) && Present(form.password)) ==>
      Signup(form, reply) == SignupRun(Failure(AllRequired, None), None)
    ensures (Present(form.firstName) && Present(form.lastName) && Present(form.email) && Present(form.password)
             && |form.password.value| < 8) ==>
      Signup(form, reply) == SignupRun(Failure(PasswordTooShort, None), None)
    ensures Signup(form, reply).sent.Some? ==>
      && Present(form.firstName) && Present(form.lastName) && |form.password.value| >= 8
      && Signup(form, reply).sent.value.fullName == form.firstName.value + " " + form.lastName.value
      && (form.storeName.None? ==> Signup(form, reply).sent.value.storeName == "")
      && (form.phone.None? ==> Signup(form, reply).sent.value.phone == "")
  {
  }

  /**
   * After the call: an error mentioning "already registered" (in that exact
   * case) and a user with an empty identity list both say to log in instead,
   * the latter tagged `email_exists`; a user with identities, or without the
   * list, is redirected to /mainpos.
   */
  lemma SignupOutcome(form: SignupForm, reply: SignUpReply)
    requires Signup(form, reply).sent.Some?
    ensures var r := Signup(form, reply).result;
      && (reply.SignUpError? ==>
            (r == Failure(LoginInstead, None) <==>
               (exists k :: Text.OccursAt(reply.message, "already registered", k)) || reply.message == LoginInstead))
      && (r == Failure(LoginInstead, Some("email_exists")) <==>
            reply.SignUpData? && reply.user.Some? && reply.user.value.identities == Some([]))
      && (r.Redirected? <==>
            reply.SignUpData? && reply.user.Some? && reply.user.value.identities != Some([]))
      && (r.Redirected? ==> r.path == "/mainpos")
  {
    if reply.SignUpError? {
      Text.ContainsAt(reply.message, "already registered");
    }
  }

  // ---------------------------------------------------------------------------
  // signout

  /** `signout`, given the error `signOut` reports, if any. */
  function Signout(error: Option<string>): (r: ActionResult)
    ensures r == Success <==> error.None?
    ensures r != Success ==> r == Failure(SignoutFailed, None)
  {
    if error.Some? then Failure(SignoutFailed, None) else Success
  }
}
