/** Model of backend/app/services/otp_service.py: issuing a one-time code to
    a user and checking it. The random digits, the clock and the result of
    sending the email are parameters. */
module OtpService {
  import opened Wrappers
  import Text
  import opened AuthService

  /** `OTP_EXPIRE_MINUTES` (the default of the environment setting). */
  const OtpExpireMinutes: int := 10

  function OtpLifetime(): int {
    OtpExpireMinutes * SecondsPerMinute
  }

  predicate IsDigit(c: char) { '0' <= c <= '9' }

  /** `generate_otp(length)`: `draws[i]` is the index in `string.digits` of
      the `i`-th random choice. */
  function GenerateOtp(draws: seq<nat>): (code: string)
    requires forall i :: 0 <= i < |draws| ==> draws[i] < 10
    ensures |code| == |draws|
    ensures forall i :: 0 <= i < |code| ==> IsDigit(code[i]) && code[i] as int - '0' as int == draws[i]
  {
    if draws == [] then [] else [Text.Digit(draws[0])] + GenerateOtp(draws[1..])
  }

  /** The fields `create_and_send_otp` assigns. */
  function Issue(u: User, code: string, now: int): User {
    u.(otpCode := Some(code), otpExpires := Some(now + OtpLifetime()))
  }

  /** One call of `verify_otp` on an existing user: the answer and the user
      afterwards. A missing or empty code, or a missing expiry, is refused. */
  function VerifyStep(u: User, code: string, now: int): (out: (bool, User))
  {
    if u.otpCode.None? || u.otpCode.value == "" || u.otpExpires.None? then (false, u)
    else if now > u.otpExpires.value then (false, u.(otpCode := None, otpExpires := None))
    else if u.otpCode.value == code then
      (true, u.(emailVerified := true, otpCode := None, otpExpires := None))
    else (false, u)
  }

  /** The cases of `verify_otp`, each with what it leaves behind. */
  lemma VerifyStepCases(u: User, code: string, now: int)
    ensures var (ok, v) := VerifyStep(u, code, now);
      && v.id == u.id && v.username == u.username && v.email == u.email
      && (u.otpCode.None? || u.otpCode == Some("") || u.otpExpires.None? ==> !ok && v == u)
      && (u.otpCode.Some? && u.otpCode.value != "" && u.otpExpires.Some? && now > u.otpExpires.value ==>
            !ok && v.emailVerified == u.emailVerified && v.otpCode.None? && v.otpExpires.None?)
      && (ok <==> u.otpCode == Some(code) && code != "" && u.otpExpires.Some? && now <= u.otpExpires.value)
      && (ok ==> v == u.(emailVerified := true, otpCode := None, otpExpires := None))
      && (!ok && u.otpExpires.Some? && now <= u.otpExpires.value ==> v == u)
  {
  }

  /** A code that was accepted cannot be accepted again. */
  lemma NoReplay(u: User, code: string, now: int, later: int)
    requires VerifyStep(u, code, now).0
    ensures !VerifyStep(VerifyStep(u, code, now).1, code, later).0
  {
  }

  /** Neither issuing nor verifying ever clears `email_verified`. */
  lemma EmailVerifiedMonotone(u: User, code: string, now: int)
    ensures VerifyStep(u, code, now).1.emailVerified == (u.emailVerified || VerifyStep(u, code, now).0)
    ensures Issue(u, code, now).emailVerified == u.emailVerified
  {
  }

  /** After a wrong guess the right code is still accepted before expiry. */
  lemma RetryAfterWrongCode(u: User, wrong: string, right: string, now: int, later: int)
    requires u.otpCode == Some(right) && right != "" && wrong != right
    requires u.otpExpires.Some? && later <= u.otpExpires.value && now <= later
    ensures VerifyStep(u, wrong, now) == (false, u)
    ensures VerifyStep(VerifyStep(u, wrong, now).1, right, later).0
  {
  }

  /** A freshly generated code is accepted exactly up to and including the
      moment ten minutes after it was issued. */
  lemma IssuedCodeAccepted(u: User, draws: seq<nat>, issuedAt: int, now: int)
    requires |draws| == 6 && forall i :: 0 <= i < |draws| ==> draws[i] < 10
    ensures var code := GenerateOtp(draws);
      VerifyStep(Issue(u, code, issuedAt), code, now).0 <==> now <= issuedAt + 600
  {
    var code := GenerateOtp(draws);
    assert |code| == 6;
  }

  /** A user registered but never sent a code cannot be verified. */
  lemma NewUserCannotVerify(id: nat, username: string, email: string, hashed: string,
                            createdAt: int, code: string, now: int)
    ensures !VerifyStep(NewUser(id, username, email, hashed, createdAt), code, now).0
  {
  }

  /** `create_and_send_otp` on the table: the answer and the new rows. An
      unknown user gets false and no change; otherwise the code is stored
      before the email is sent, whatever the send returns. */
  function SendOutcome(rows: seq<User>, userId: int, code: string, now: int, sendOk: bool): (out: (bool, seq<User>))
    ensures |out.1| == |rows|
  {
    match UserIndex(rows, userId)
    case None => (false, rows)
    case Some(i) => (sendOk, rows[i := Issue(rows[i], code, now)])
  }

  /** Issuing a code changes only the addressed user, who then holds the code
      and an expiry ten minutes ahead; the answer is the send result, and an
      unknown id is refused without change. */
  lemma SendOutcomeEffect(rows: seq<User>, userId: int, code: string, now: int, sendOk: bool)
    requires UsersValid(rows)
    ensures var (ok, after) := SendOutcome(rows, userId, code, now, sendOk);
      && UsersValid(after)
      && (UserIndex(rows, userId).None? ==> !ok && after == rows)
      && (UserIndex(rows, userId).Some? ==>
            var i := UserIndex(rows, userId).value;
            && ok == sendOk
            && after[i].otpCode == Some(code) && after[i].otpExpires == Some(now + 600)
            && after[i].emailVerified == rows[i].emailVerified)
      && (forall k :: 0 <= k < |rows| && rows[k].id != userId ==> after[k] == rows[k])
  {
    var idx := UserIndex(rows, userId);
    if idx.Some? {
      UpdateKeepsValid(rows, idx.value, Issue(rows[idx.value], code, now));
    }
  }

  /** `verify_otp` on the table. */
  function VerifyOutcome(rows: seq<User>, userId: int, code: string, now: int): (out: (bool, seq<User>))
    ensures |out.1| == |rows|
  {
    match UserIndex(rows, userId)
    case None => (false, rows)
    case Some(i) => var (ok, u) := VerifyStep(rows[i], code, now); (ok, rows[i := u])
  }

  /** Verification changes only the addressed user, keeps the table's
      constraints, and fails for an unknown id. */
  lemma VerifyOutcomeFrame(rows: seq<User>, userId: int, code: string, now: int)
    requires UsersValid(rows)
    ensures var (ok, after) := VerifyOutcome(rows, userId, code, now);
      && UsersValid(after)
      && (UserIndex(rows, userId).None? ==> !ok && after == rows)
      && (forall k :: 0 <= k < |rows| && rows[k].id != userId ==> after[k] == rows[k])
  {
    var idx := UserIndex(rows, userId);
    if idx.Some? {
      VerifyStepCases(rows[idx.value], code, now);
      UpdateKeepsValid(rows, idx.value, VerifyStep(rows[idx.value], code, now).1);
    }
  }

  /** `create_and_send_otp`. */
  method CreateAndSendOtp(db: UserTable, userId: int, draws: seq<nat>, now: int, sendOk: bool)
    returns (ok: bool)
    requires db.Valid()
    requires |draws| == 6 && forall i :: 0 <= i < |draws| ==> draws[i] < 10
    modifies db
    ensures db.Valid()
    ensures (ok, db.rows) == SendOutcome(old(db.rows), userId, GenerateOtp(draws), now, sendOk)
  {
    var idx := UserIndex(db.rows, userId);
    if idx.None? {
      return false;
    }
    var i := idx.value;
    var code := GenerateOtp(draws);
    UpdateKeepsValid(db.rows, i, Issue(db.rows[i], code, now));
    var u := db.rows[i];
    u := u.(otpCode := Some(code));
    u := u.(otpExpires := Some(now + OtpLifetime()));
    db.rows := db.rows[i := u];
    ok := sendOk;
  }

  /** `verify_otp`. */
  method VerifyOtp(db: UserTable, userId: int, code: string, now: int) returns (ok: bool)
    requires db.Valid()
    modifies db
    ensures db.Valid()
    ensures (ok, db.rows) == VerifyOutcome(old(db.rows), userId, code, now)
  {
    var idx := UserIndex(db.rows, userId);
    if idx.None? {
      return false;
    }
    var i := idx.value;
    var u := db.rows[i];
    VerifyStepCases(u, code, now);
    UpdateKeepsValid(db.rows, i, VerifyStep(u, code, now).1);
    assert db.rows[i := u] == db.rows;
    if u.otpCode.None? || u.otpCode.value == "" || u.otpExpires.None? {
      return false;
    }
    if now > u.otpExpires.value {
      u := u.(otpCode := None, otpExpires := None);
      db.rows := db.rows[i := u];
      return false;
    }
    if u.otpCode.value == code {
      u := u.(emailVerified := true);
      u := u.(otpCode := None, otpExpires := None);
      db.rows := db.rows[i := u];
      return true;
    }
    ok := false;
  }

  /** `resend_otp`: the same as issuing a new code. */
  method ResendOtp(db: UserTable, userId: int, draws: seq<nat>, now: int, sendOk: bool)
    returns (ok: bool)
    requires db.Valid()
    requires |draws| == 6 && forall i :: 0 <= i < |draws| ==> draws[i] < 10
    modifies db
    ensures db.Valid()
    ensures (ok, db.rows) == SendOutcome(old(db.rows), userId, GenerateOtp(draws), now, sendOk)
  {
    ok := CreateAndSendOtp(db, userId, draws, now, sendOk);
  }
}
