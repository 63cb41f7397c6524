/** Model of backend/app/services/auth_service.py over the `users` table of
    backend/app/models/user.py. The bcrypt hash and its check are function
    parameters; JWT encoding is left out and only the claims are built. */
module AuthService {
  import opened Wrappers

  /** `ACCESS_TOKEN_EXPIRE_MINUTES`: one week. */
  const AccessTokenExpireMinutes: int := 60 * 24 * 7
  const SecondsPerMinute: int := 60

  /** One row of the `users` table; times are seconds. */
  datatype User = User(id: nat, username: string, email: string, hashedPassword: string,
                       isActive: bool, isSuperuser: bool, emailVerified: bool,
                       otpCode: Option<string>, otpExpires: Option<int>, createdAt: int)

  /** A freshly inserted user: the column defaults of the model. */
  function NewUser(id: nat, username: string, email: string, hashed: string, now: int): User {
    User(id, username, email, hashed, true, false, false, None, None, now)
  }

  ghost predicate UsersKeyed(rows: seq<User>) {
    forall i :: 0 <= i < |rows| ==> rows[i].id == i + 1
  }

  predicate UsernameTaken(rows: seq<User>, username: string) {
    exists i :: 0 <= i < |rows| && rows[i].username == username
  }

  predicate EmailTaken(rows: seq<User>, email: string) {
    exists i :: 0 <= i < |rows| && rows[i].email == email
  }

  /** The table's own constraints: autoincrement ids, and `unique=True` on
      both `username` and `email`. */
  ghost predicate UsersValid(rows: seq<User>) {
    && UsersKeyed(rows)
    && (forall i, j :: 0 <= i < j < |rows| ==> rows[i].username != rows[j].username)
    && (forall i, j :: 0 <= i < j < |rows| ==> rows[i].email != rows[j].email)
  }

  /** Replacing a row by one with the same id, username and email keeps the
      constraints. */
  lemma UpdateKeepsValid(rows: seq<User>, i: nat, u: User)
    requires UsersValid(rows) && i < |rows|
    requires u.id == rows[i].id && u.username == rows[i].username && u.email == rows[i].email
    ensures UsersValid(rows[i := u])
  {
  }

  class UserTable {
    var rows: seq<User>

    ghost predicate Valid()
      reads this
    {
      UsersValid(rows)
    }

    constructor ()
      ensures Valid() && rows == []
    {
      rows := [];
    }
  }

  /** Index of the first row with this username. */
  function UsernameIndex(rows: seq<User>, username: string): (r: Option<nat>)
    ensures r.Some? ==> r.value < |rows| && rows[r.value].username == username
    ensures r.Some? ==> forall k :: 0 <= k < r.value ==> rows[k].username != username
    ensures r.None? <==> !UsernameTaken(rows, username)
    decreases |rows|
  {
    if rows == [] then None
    else if rows[0].username == username then Some(0)
    else
      var rest := UsernameIndex(rows[1..], username);
      assert forall k :: 1 <= k < |rows| ==> rows[k] == rows[1..][k - 1];
      if rest.None? then None else Some(rest.value + 1)
  }

  /** Index of the first row with this id (`select(User).where(User.id == id)`). */
  function UserIndex(rows: seq<User>, id: int): (r: Option<nat>)
    ensures r.Some? ==> r.value < |rows| && rows[r.value].id == id
    ensures r.None? <==> forall k :: 0 <= k < |rows| ==> rows[k].id != id
    decreases |rows|
  {
    if rows == [] then None
    else if rows[0].id == id then Some(0)
    else
      var rest := UserIndex(rows[1..], id);
      assert forall k :: 1 <= k < |rows| ==> rows[k] == rows[1..][k - 1];
      if rest.None? then None else Some(rest.value + 1)
  }

  /** With autoincrement ids the row of id `k` is the `k`-th one. */
  lemma UserIndexKeyed(rows: seq<User>, id: int)
    requires UsersKeyed(rows)
    ensures 1 <= id <= |rows| ==> UserIndex(rows, id) == Some(id - 1)
    ensures !(1 <= id <= |rows|) ==> UserIndex(rows, id).None?
  {
    if 1 <= id <= |rows| {
      var r := UserIndex(rows, id);
      assert rows[id - 1].id == id;
      assert r.Some?;
    }
  }

  /** `get_user_by_username`. */
  function GetUserByUsername(rows: seq<User>, username: string): (r: Option<User>)
    ensures r.Some? ==> r.value in rows && r.value.username == username
    ensures r.None? <==> !UsernameTaken(rows, username)
  {
    var i := UsernameIndex(rows, username);
    if i.Some? then Some(rows[i.value]) else None
  }

  /** `get_user_by_id`, which the register routes import. */
  function GetUserById(rows: seq<User>, id: int): (r: Option<User>)
    ensures r.Some? ==> r.value in rows && r.value.id == id
    ensures r.None? <==> forall k :: 0 <= k < |rows| ==> rows[k].id != id
  {
    var i := UserIndex(rows, id);
    if i.Some? then Some(rows[i.value]) else None
  }

  /** `authenticate_user`: the user of that name when the password checks
      against its stored hash. */
  function Authenticate(rows: seq<User>, username: string, password: string,
                        verify: (string, string) -> bool): (r: Option<User>)
    ensures r.Some? ==> r.value in rows && r.value.username == username
                        && verify(password, r.value.hashedPassword)
  {
    match GetUserByUsername(rows, username)
    case None => None
    case Some(u) => if verify(password, u.hashedPassword) then Some(u) else None
  }

  /** Under unique usernames, authentication succeeds exactly when some user
      has that name and the password checks against that user's hash. */
  lemma AuthenticateIff(rows: seq<User>, username: string, password: string,
                        verify: (string, string) -> bool)
    requires UsersValid(rows)
    ensures Authenticate(rows, username, password, verify).Some? <==>
      exists i :: 0 <= i < |rows| && rows[i].username == username && verify(password, rows[i].hashedPassword)
  {
    var idx := UsernameIndex(rows, username);
    if idx.Some? {
      forall i | 0 <= i < |rows| && rows[i].username == username
        ensures i == idx.value
      {
      }
    }
  }

  /** What `create_user` ends in. A duplicate email is not rejected by the
      service: the insert violates the `unique` email column and the commit
      raises. */
  datatype CreateOutcome = Created(user: User) | NotCreated | IntegrityError

  /** `create_user` as written: only the username is checked. */
  function CreateStep(rows: seq<User>, username: string, email: string, password: string,
                      hash: string -> string, now: int): (out: (CreateOutcome, seq<User>))
  {
    if UsernameTaken(rows, username) then (NotCreated, rows)
    else if EmailTaken(rows, email) then (IntegrityError, rows)
    else
      var u := NewUser(|rows| + 1, username, email, hash(password), now);
      (Created(u), rows + [u])
  }

  /** `create_user`'s effects: a taken username adds nothing; a new one with
      a new email adds exactly one unverified user with the hashed password,
      found afterwards by its name, and the constraints still hold. */
  lemma {:induction false} CreateStepEffect(rows: seq<User>, username: string, email: string,
                                            password: string, hash: string -> string, now: int)
    requires UsersValid(rows)
    ensures var (r, after) := CreateStep(rows, username, email, password, hash, now);
      && UsersValid(after)
      && (UsernameTaken(rows, username) ==> r == NotCreated && after == rows)
      && (!r.Created? ==> after == rows)
      && (r.Created? ==>
            && after == rows + [r.user]
            && r.user.id == |rows| + 1 && r.user.username == username && r.user.email == email
            && r.user.hashedPassword == hash(password) && !r.user.emailVerified
            && r.user.otpCode.None? && r.user.otpExpires.None?
            && GetUserByUsername(after, username) == Some(r.user))
  {
    var (r, after) := CreateStep(rows, username, email, password, hash, now);
    if r.Created? {
      var u := r.user;
      assert after == rows + [u];
      forall i | 0 <= i < |rows| ensures after[i].username != username && after[i].email != email {
        assert after[i] == rows[i];
      }
      UsernameIndexAppend(rows, u);
    }
  }

  lemma UsernameIndexAppend(rows: seq<User>, u: User)
    requires !UsernameTaken(rows, u.username)
    ensures UsernameIndex(rows + [u], u.username) == Some(|rows|)
  {
    var after := rows + [u];
    assert after[|rows|] == u;
    var r := UsernameIndex(after, u.username);
    assert r.Some?;
    assert forall k :: 0 <= k < |rows| ==> after[k] == rows[k];
  }

  /** Given `verify(p, hash(p))` for every password, logging in right after a
      successful registration with the same password succeeds. */
  lemma {:induction false} CreateThenAuthenticate(rows: seq<User>, username: string, email: string,
                                                  password: string, hash: string -> string,
                                                  verify: (string, string) -> bool, now: int)
    requires UsersValid(rows)
    requires forall p :: verify(p, hash(p))
    requires CreateStep(rows, username, email, password, hash, now).0.Created?
    ensures var (r, after) := CreateStep(rows, username, email, password, hash, now);
      Authenticate(after, username, password, verify) == Some(r.user)
  {
    CreateStepEffect(rows, username, email, password, hash, now);
    var (r, after) := CreateStep(rows, username, email, password, hash, now);
    assert verify(password, hash(password));
  }

  /** Registering a second account with an email already in use is not
      caught by the service and ends in an integrity error. */
  lemma DuplicateEmailRaises(hash: string -> string)
    ensures var rows := [NewUser(1, "alice", "a@example.com", hash("pw1"), 0)];
      CreateStep(rows, "bob", "a@example.com", "pw2", hash, 1).0 == IntegrityError
  {
    var rows := [NewUser(1, "alice", "a@example.com", hash("pw1"), 0)];
    assert !UsernameTaken(rows, "bob") by {
      assert rows[0].username == "alice";
    }
    assert EmailTaken(rows, "a@example.com") by {
      assert rows[0].email == "a@example.com";
    }
  }

  /** `create_user` rejecting a taken username or a taken email, as the
      register route's message "Username or email already exists" intends. */
  function CreateStepChecked(rows: seq<User>, username: string, email: string, password: string,
                             hash: string -> string, now: int): (out: (CreateOutcome, seq<User>))
  {
    if UsernameTaken(rows, username) || EmailTaken(rows, email) then (NotCreated, rows)
    else
      var u := NewUser(|rows| + 1, username, email, hash(password), now);
      (Created(u), rows + [u])
  }

  /** The checked version never reaches the database constraint and agrees
      with the service as written wherever that one does not raise. */
  lemma CreateStepCheckedNeverRaises(rows: seq<User>, username: string, email: string,
                                     password: string, hash: string -> string, now: int)
    requires UsersValid(rows)
    ensures var (r, after) := CreateStepChecked(rows, username, email, password, hash, now);
      && !r.IntegrityError?
      && UsersValid(after)
      && (r.NotCreated? <==> UsernameTaken(rows, username) || EmailTaken(rows, email))
      && (CreateStep(rows, username, email, password, hash, now).0 != IntegrityError ==>
            CreateStep(rows, username, email, password, hash, now) == (r, after))
  {
    CreateStepEffect(rows, username, email, password, hash, now);
  }

  /** `create_user`. */
  method CreateUser(db: UserTable, username: string, email: string, password: string,
                    hash: string -> string, now: int)
    returns (r: CreateOutcome)
    requires db.Valid()
    modifies db
    ensures db.Valid()
    ensures (r, db.rows) == CreateStep(old(db.rows), username, email, password, hash, now)
  {
    var existing := GetUserByUsername(db.rows, username);
    if existing.Some? {
      return NotCreated;
    }
    if EmailTaken(db.rows, email) {
      return IntegrityError;
    }
    CreateStepEffect(db.rows, username, email, password, hash, now);
    var u := NewUser(|db.rows| + 1, username, email, hash(password), now);
    db.rows := db.rows + [u];
    r := Created(u);
  }

  /** A claim value: the `sub` string, or the `exp` time. */
  datatype Claim = Str(text: string) | Time(seconds: int)

  /** The claims `create_access_token` encodes: a copy of `data` with `exp`
      set. A zero delta is falsy in Python and falls back to the default. */
  function AccessTokenClaims(data: map<string, Claim>, now: int, expiresDelta: Option<int>): (r: map<string, Claim>)
    ensures r.Keys == data.Keys + {"exp"}
    ensures forall k :: k in data && k != "exp" ==> r[k] == data[k]
    ensures expiresDelta.Some? && expiresDelta.value != 0 ==> r["exp"] == Time(now + expiresDelta.value)
    ensures expiresDelta.None? || expiresDelta.value == 0 ==>
              r["exp"] == Time(now + AccessTokenExpireMinutes * SecondsPerMinute)
  {
    var delta := if expiresDelta.Some? && expiresDelta.value != 0 then expiresDelta.value
                 else AccessTokenExpireMinutes * SecondsPerMinute;
    data["exp" := Time(now + delta)]
  }
}
