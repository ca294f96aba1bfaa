/**
 * The sign-up API endpoint (app/api/signup/route.ts): how `POST` turns the
 * request body and the auth service's answer into a JSON response and an
 * HTTP status.
 *
 * `req.json()`, `supabase.auth.signUp` and the default-category seeding are
 * not run; what they produce is given as parameters.
 */
module SignupRoute {
  import opened Wrappers
  import Text

  /** The body's fields; `None` stands for a missing, null or otherwise falsy value. */
  datatype Body = Body(
    firstName: Option<string>, lastName: Option<string>, email: Option<string>,
    password: Option<string>, storeName: Option<string>, phone: Option<string>)

  /** The request: a body that parses as JSON, or one on which `req.json()` throws. */
  datatype Request = Parsed(body: Body) | Unparsable(message: Option<string>)

  /** What `signUp` does: it reports an error, returns (possibly without a user id), or throws. */
  datatype AuthReply = AuthError(message: Option<string>) | AuthOk(userId: Option<string>) | AuthThrew(thrown: Option<string>)

  /** The sign-up call's arguments: credentials and the user metadata. */
  datatype SignUpCall = SignUpCall(email: string, password: string, fullName: string, storeName: string, phone: string)

  datatype Response = Response(status: int, success: bool, error: string)

  /** The response, the sign-up call made if any, and the user whose categories seeding was started for. */
  datatype Reply = Reply(response: Response, call: Option<SignUpCall>, seeded: Option<string>)

  const AllRequired := "All fields are required"
  const PasswordTooShort := "Password must be at least 8 characters long"
  const AlreadyRegistered := "This email is already registered. Please login instead."

  /** `value || ""`. */
  function OrEmpty(v: Option<string>): string {
    if v.Some? then v.value else ""
  }

  /** `` `${firstName} ${lastName}`.trim() ``. */
  function FullName(first: string, last: string): string {
    Text.Trim(first + " " + last)
  }

  /**
   * `POST`. The outcome of the seeding, `seedThrows`, is caught and only
   * logged, so the body of the function never reads it.
   */
  function Post(req: Request, auth: AuthReply, seedThrows: bool): Reply {
    match req
    case Unparsable(m) => Reply(Response(500, false, if m.Some? && m.value != "" then m.value else "Unexpected error"), None, None)
    case Parsed(body) =>
      var first := OrEmpty(body.firstName);
      var last := OrEmpty(body.lastName);
      var email := OrEmpty(body.email);
      var password := OrEmpty(body.password);
      if first == "" || last == "" || email == "" || password == "" then
        Reply(Response(400, false, AllRequired), None, None)
      else if |password| < 8 then
        Reply(Response(400, false, PasswordTooShort), None, None)
      else
        var call := SignUpCall(email, password, FullName(first, last), OrEmpty(body.storeName), OrEmpty(body.phone));
        match auth
        case AuthThrew(m) =>
          Reply(Response(500, false, if m.Some? && m.value != "" then m.value else "Unexpected error"), Some(call), None)
        case AuthError(m) =>
          if m.Some? && Text.Contains(Text.Lower(m.value), "already registered") then
            Reply(Response(409, false, AlreadyRegistered), Some(call), None)
          else
            Reply(Response(400, false, if m.Some? && m.value != "" then m.value else "Signup failed"), Some(call), None)
        case AuthOk(id) =>
          Reply(Response(200, true, ""), Some(call), if id.Some? && id.value != "" then id else None)
  }

  /** Every field present and non-empty, as the first check asks. */
  predicate AllPresent(b: Body) {
    OrEmpty(b.firstName) != "" && OrEmpty(b.lastName) != "" && OrEmpty(b.email) != "" && OrEmpty(b.password) != ""
  }

  /**
   * The checks come before any call: a missing field gives 400 "All fields
   * are required" whatever the password; with every field present, a
   * password under 8 characters gives 400 with the length message.
   */
  lemma ValidationFirst(body: Body, auth: AuthReply, seedThrows: bool)
    ensures !AllPresent(body) ==>
      Post(Parsed(body), auth, seedThrows) == Reply(Response(400, false, AllRequired), None, None)
    ensures AllPresent(body) && |OrEmpty(body.password)| < 8 ==>
      Post(Parsed(body), auth, seedThrows) == Reply(Response(400, false, PasswordTooShort), None, None)
    ensures Post(Parsed(body), auth, seedThrows).call.Some? <==> AllPresent(body) && |OrEmpty(body.password)| >= 8
  {
  }

  /**
   * A valid body is sent on with the trimmed full name and empty strings for
   * a missing store name or phone.
   */
  lemma CallArguments(body: Body, auth: AuthReply, seedThrows: bool)
    requires AllPresent(body) && |OrEmpty(body.password)| >= 8
    ensures var c := Post(Parsed(body), auth, seedThrows).call;
      && c.Some?
      && c.value.email == body.email.value && c.value.password == body.password.value
      && c.value.fullName == Text.Trim(body.firstName.value + " " + body.lastName.value)
      && c.value.storeName == (if body.storeName.Some? then body.storeName.value else "")
      && c.value.phone == (if body.phone.Some? then body.phone.value else "")
  {
  }

  /**
   * The auth service's answer decides the status: 409 when its error message
   * mentions "already registered" in any letter case, 400 with the message
   * (or "Signup failed") for any other error, 200 on success and 500 when it
   * throws.
   */
  lemma AuthOutcome(body: Body, auth: AuthReply, seedThrows: bool)
    requires AllPresent(body) && |OrEmpty(body.password)| >= 8
    ensures var r := Post(Parsed(body), auth, seedThrows).response;
      && (auth.AuthError? && auth.message.Some?
          && (exists k :: Text.OccursAt(Text.Lower(auth.message.value), "already registered", k))
          ==> r == Response(409, false, AlreadyRegistered))
      && (auth.AuthError? && !(auth.message.Some? && Text.Contains(Text.Lower(auth.message.value), "already registered"))
          ==> r.status == 400 && (auth.message.Some? && auth.message.value != "" ==> r.error == auth.message.value)
              && (auth.message.None? || auth.message.value == "" ==> r.error == "Signup failed"))
      && (auth.AuthOk? <==> r == Response(200, true, ""))
      && (auth.AuthThrew? <==> r.status == 500)
  {
    if auth.AuthError? && auth.message.Some? {
      Text.ContainsAt(Text.Lower(auth.message.value), "already registered");
    }
  }

  /**
   * The response reports success exactly with status 200, and seeding runs
   * only for a signed-up user with an id; whether seeding throws never
   * changes the response.
   */
  lemma ResponseShape(req: Request, auth: AuthReply, seedThrows: bool)
    ensures var r := Post(req, auth, seedThrows);
      && (r.response.success <==> r.response.status == 200)
      && (r.response.success <==> r.call.Some? && auth.AuthOk?)
      && (r.seeded.Some? ==> r.response.success && auth.AuthOk? && auth.userId == r.seeded && r.seeded.value != "")
      && (r.response.status in {200, 400, 409, 500})
    ensures Post(req, auth, seedThrows) == Post(req, auth, !seedThrows)
  {
  }
}
