/** Model of the decision chains of backend/app/api/routes_auth.py. Each
    handler is a function of the service results it branches on; the
    services' state changes are the ones of AuthService and OtpService. */
module AuthRoutes {
  import opened Wrappers
  import opened AuthService
  import OtpService

  /** An HTTP answer: a body with its status, or an `HTTPException`. */
  datatype Http<T> = Success(code: nat, body: T) | Failure(code: nat, detail: string)

  datatype RegisterBody = RegisterBody(message: string, userId: nat, emailVerified: bool)

  datatype OtpResponse = OtpResponse(success: bool, message: string)

  datatype LoginBody = LoginBody(accessToken: string, tokenType: string, id: nat, username: string,
                                 email: string, emailVerified: bool)

  const RegisteredMessage: string :=
    "User registered successfully. Please check your email for verification code."

  /** `register`: 409 when `create_user` answers none; a database error
      surfaces as the framework's 500. */
  function Register(outcome: CreateOutcome): (r: Http<RegisterBody>)
    ensures r.Success? <==> outcome.Created?
    ensures outcome.NotCreated? ==> r == Failure(409, "Username or email already exists")
    ensures outcome.IntegrityError? ==> r.Failure? && r.code == 500
    ensures outcome.Created? ==>
      r == Success(201, RegisterBody(RegisteredMessage, outcome.user.id, outcome.user.emailVerified))
  {
    match outcome
    case NotCreated => Failure(409, "Username or email already exists")
    case IntegrityError => Failure(500, "Internal Server Error")
    case Created(u) => Success(201, RegisterBody(RegisteredMessage, u.id, u.emailVerified))
  }

  /** Registration answers 409 for a taken username and otherwise reports a
      new, unverified user with the next id (or fails on a taken email). */
  lemma RegisterFlow(rows: seq<User>, username: string, email: string, password: string,
                     hash: string -> string, now: int)
    requires UsersValid(rows)
    ensures var r := Register(CreateStep(rows, username, email, password, hash, now).0);
      && (UsernameTaken(rows, username) ==> r == Failure(409, "Username or email already exists"))
      && (!UsernameTaken(rows, username) && EmailTaken(rows, email) ==> r.code == 500)
      && (!UsernameTaken(rows, username) && !EmailTaken(rows, email) ==>
            r.Success? && r.code == 201 && r.body.userId == |rows| + 1 && !r.body.emailVerified)
  {
    CreateStepEffect(rows, username, email, password, hash, now);
  }

  /** With the checked registration a taken email is a 409 as well, and the
      handler never answers 500. */
  lemma RegisterCheckedNever500(rows: seq<User>, username: string, email: string, password: string,
                                hash: string -> string, now: int)
    requires UsersValid(rows)
    ensures var r := Register(CreateStepChecked(rows, username, email, password, hash, now).0);
      && (r.code == 201 || r.code == 409)
      && (r.code == 409 <==> UsernameTaken(rows, username) || EmailTaken(rows, email))
  {
    CreateStepCheckedNeverRaises(rows, username, email, password, hash, now);
  }

  /** `verify_email`: any failure of `verify_otp` is a 400. */
  function VerifyEmail(success: bool): (r: Http<OtpResponse>)
    ensures r.Failure? <==> !success
    ensures !success ==> r == Failure(400, "Invalid or expired OTP code")
    ensures success ==> r == Success(200, OtpResponse(true, "Email verified successfully"))
  {
    if !success then Failure(400, "Invalid or expired OTP code")
    else Success(200, OtpResponse(true, "Email verified successfully"))
  }

  /** An unknown user id is answered 400 and changes nothing. */
  lemma VerifyEmailUnknownUser(rows: seq<User>, userId: int, code: string, now: int)
    requires forall k :: 0 <= k < |rows| ==> rows[k].id != userId
    ensures OtpService.VerifyOutcome(rows, userId, code, now) == (false, rows)
    ensures VerifyEmail(OtpService.VerifyOutcome(rows, userId, code, now).0).code == 400
  {
  }

  /** Registering issues no code, so every verification of the new user
      fails until a code is sent. */
  lemma RegisterThenVerifyFails(rows: seq<User>, username: string, email: string, password: string,
                                hash: string -> string, now: int, code: string, later: int)
    requires UsersValid(rows)
    requires CreateStep(rows, username, email, password, hash, now).0.Created?
    ensures var (r, after) := CreateStep(rows, username, email, password, hash, now);
      VerifyEmail(OtpService.VerifyOutcome(after, r.user.id, code, later).0).code == 400
  {
    CreateStepEffect(rows, username, email, password, hash, now);
    var (r, after) := CreateStep(rows, username, email, password, hash, now);
    UserIndexKeyed(after, r.user.id);
    assert after[|rows|] == r.user;
  }

  /** `resend_otp_endpoint` with the call to `resend_otp` it makes: the answer
      and the new rows. `get_user_by_id` is not defined in auth_service.py;
      it is read as the id lookup its name describes. */
  function ResendOtpEndpoint(rows: seq<User>, userId: int, code: string, now: int, sendOk: bool)
    : (out: (Http<OtpResponse>, seq<User>))
  {
    match GetUserById(rows, userId)
    case None => (Failure(404, "User not found"), rows)
    case Some(u) =>
      if u.emailVerified then (Failure(400, "Email already verified"), rows)
      else
        var (sent, after) := OtpService.SendOutcome(rows, userId, code, now, sendOk);
        if !sent then (Failure(500, "Failed to send OTP. Please try again."), after)
        else (Success(200, OtpResponse(true, "OTP sent successfully")), after)
  }

  /** The checks come in the order unknown user, already verified, failed
      send; only an unverified user is sent a new code, which is stored even
      when the email fails. */
  lemma ResendOtpEndpointOrder(rows: seq<User>, userId: int, code: string, now: int, sendOk: bool)
    ensures var (r, after) := ResendOtpEndpoint(rows, userId, code, now, sendOk);
      && (UserIndex(rows, userId).None? ==> r == Failure(404, "User not found") && after == rows)
      && (UserIndex(rows, userId).Some? ==>
            var i := UserIndex(rows, userId).value;
            && (rows[i].emailVerified ==> r == Failure(400, "Email already verified") && after == rows)
            && (!rows[i].emailVerified ==>
                  && after == rows[i := OtpService.Issue(rows[i], code, now)]
                  && (r.Success? <==> sendOk)
                  && (!sendOk ==> r == Failure(500, "Failed to send OTP. Please try again."))))
  {
  }

  /** `login`: bad credentials are refused before the verification gate. */
  function Login(auth: Option<User>, now: int, encode: map<string, Claim> -> string): (r: Http<LoginBody>)
    ensures auth.None? ==> r == Failure(401, "Incorrect username or password")
    ensures auth.Some? && !auth.value.emailVerified ==>
      r == Failure(403, "Email not verified. Please verify your email before logging in.")
    ensures r.Success? <==> auth.Some? && auth.value.emailVerified
    ensures r.Success? ==>
      var u := auth.value;
      r == Success(200, LoginBody(encode(AccessTokenClaims(map["sub" := Str(u.username)], now, None)),
                                  "bearer", u.id, u.username, u.email, true))
  {
    match auth
    case None => Failure(401, "Incorrect username or password")
    case Some(u) =>
      if !u.emailVerified then Failure(403, "Email not verified. Please verify your email before logging in.")
      else
        var token := encode(AccessTokenClaims(map["sub" := Str(u.username)], now, None));
        Success(200, LoginBody(token, "bearer", u.id, u.username, u.email, u.emailVerified))
  }

  /** A token is issued only to a user whose password checks and whose email
      is verified; it names that user and expires a week later. */
  lemma LoginGate(rows: seq<User>, username: string, password: string,
                  verify: (string, string) -> bool, now: int, encode: map<string, Claim> -> string)
    requires UsersValid(rows)
    ensures var r := Login(Authenticate(rows, username, password, verify), now, encode);
      && (r.Success? <==> exists i :: 0 <= i < |rows| && rows[i].username == username
                                      && verify(password, rows[i].hashedPassword) && rows[i].emailVerified)
      && (r.Success? ==>
            var claims := AccessTokenClaims(map["sub" := Str(username)], now, None);
            && claims["sub"] == Str(username)
            && claims["exp"] == Time(now + 7 * 24 * 60 * 60)
            && r.body.accessToken == encode(claims))
  {
    AuthenticateIff(rows, username, password, verify);
    var a := Authenticate(rows, username, password, verify);
    if a.Some? {
      var idx := UsernameIndex(rows, username);
      forall i | 0 <= i < |rows| && rows[i].username == username ensures rows[i] == a.value {
        assert i == idx.value;
      }
    }
  }

  /** Right after registering, the correct password is answered 403. */
  lemma RegisterThenLoginForbidden(rows: seq<User>, username: string, email: string, password: string,
                                   hash: string -> string, verify: (string, string) -> bool,
                                   now: int, encode: map<string, Claim> -> string)
    requires UsersValid(rows)
    requires forall p :: verify(p, hash(p))
    requires CreateStep(rows, username, email, password, hash, now).0.Created?
    ensures var after := CreateStep(rows, username, email, password, hash, now).1;
      Login(Authenticate(after, username, password, verify), now, encode).code == 403
  {
    CreateStepEffect(rows, username, email, password, hash, now);
    CreateThenAuthenticate(rows, username, email, password, hash, verify, now);
  }
}
