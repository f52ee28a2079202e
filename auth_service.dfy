/** Registration and login over the user table, keyed by email, with the password
    kept only as a bcrypt hash and sessions carried by signed tokens. */
module AuthService {
  import opened Wrappers
  import opened Strings

  const SaltRounds: nat := 10
  const MinPasswordLength: nat := 6

  const EmailTaken: AppError := AppError(400, "User with this email already exists")
  const PasswordTooShort: AppError := AppError(400, "Password must be at least 6 characters long")
  const InvalidCredentials: AppError := AppError(401, "Invalid credentials")
  const InvalidToken: AppError := AppError(401, "Invalid or expired token")

  /** A bcrypt hash: the salt drawn for it, the cost, and what it commits to. The
      rest of the service never looks inside; only `Verify` does. */
  datatype PasswordHash = Bcrypt(salt: nat, rounds: nat, committed: string)

  /** `bcrypt.hash(password, SALT_ROUNDS)` with the drawn salt passed in. */
  function Hash(password: string, salt: nat): (h: PasswordHash)
    ensures h.salt == salt && h.rounds == SaltRounds
    ensures forall q :: Verify(q, h) <==> q == password
  {
    Bcrypt(salt, SaltRounds, password)
  }

  /** `bcrypt.compare(password, hash)`. */
  predicate Verify(password: string, hash: PasswordHash) {
    hash.committed == password
  }

  /** A password verifies against a hash of a password exactly when the two are
      the same, whatever salt was drawn. */
  lemma VerifyHashIff(p: string, q: string, salt: nat)
    ensures Verify(p, Hash(q, salt)) <==> p == q
  {
  }

  /** The token payload `{id, email}`. */
  datatype Claims = Claims(id: string, email: string)

  /** A signed token: its payload and the HS256 signature over it under a key. */
  datatype Token = Jwt(claims: Claims, signature: Signature)
  datatype Signature = Hs256(key: string, signed: Claims)

  /** `app.jwt.sign(claims)` under the configured secret. */
  function Sign(secret: string, claims: Claims): (t: Token)
    ensures VerifyToken(secret, t) == Ok(claims)
  {
    Jwt(claims, Hs256(secret, claims))
  }

  /** `verifyToken(token)`: the payload if the signature is the secret's over it. */
  function VerifyToken(secret: string, token: Token): (r: Outcome<Claims>)
    ensures r.Ok? ==> r.value == token.claims
    ensures r.Err? ==> r.error == InvalidToken
  {
    if token.signature == Hs256(secret, token.claims) then Ok(token.claims) else Err(InvalidToken)
  }

  /** A token verifies under the secret it was signed with and yields its payload;
      under any other secret it is rejected. */
  lemma SignVerifyRoundTrip(secret: string, other: string, claims: Claims)
    ensures VerifyToken(secret, Sign(secret, claims)) == Ok(claims)
    ensures other != secret ==> VerifyToken(other, Sign(secret, claims)) == Err(InvalidToken)
  {
  }

  /** A token whose payload was changed after signing is rejected. */
  lemma TamperedTokenRejected(secret: string, claims: Claims, forged: Claims)
    requires forged != claims
    ensures VerifyToken(secret, Jwt(forged, Sign(secret, claims).signature)) == Err(InvalidToken)
  {
  }

  /** A stored user. */
  datatype User = User(id: nat, email: string, passwordHash: PasswordHash)

  /** The `{id, email}` returned to the client. */
  datatype UserInfo = UserInfo(id: string, email: string)

  /** `{token, user}` of register and login. */
  datatype LoginResponse = LoginResponse(token: Token, user: UserInfo)

  /** The user table: users by email and the next id to hand out. */
  datatype UserTable = UserTable(users: map<string, User>, nextId: nat)

  /** Each user is filed under its own email and has an id below `nextId`. */
  predicate TableValid(t: UserTable) {
    forall e :: e in t.users ==> t.users[e].email == e && t.users[e].id < t.nextId
  }

  /** The response for `user`: a token over its id and email, and the same two. */
  function ResponseFor(secret: string, user: User): LoginResponse {
    var id := NatToString(user.id);
    LoginResponse(Sign(secret, Claims(id, user.email)), UserInfo(id, user.email))
  }

  /** `register(email, password)`: the duplicate check first, then the length
      check, then a new user holding only the password's hash. */
  function RegisterSpec(t: UserTable, email: string, password: string, salt: nat, secret: string): (res: (UserTable, Outcome<LoginResponse>))
    requires TableValid(t)
    ensures TableValid(res.0)
  {
    if email in t.users then (t, Err(EmailTaken))
    else if Utf16Length(password) < MinPasswordLength then (t, Err(PasswordTooShort))
    else
      var user := User(t.nextId, email, Hash(password, salt));
      (UserTable(t.users[email := user], t.nextId + 1), Ok(ResponseFor(secret, user)))
  }

  /** `login(email, password)`: one message for an unknown email and a wrong
      password alike. */
  function LoginSpec(t: UserTable, email: string, password: string, secret: string): (r: Outcome<LoginResponse>)
    ensures r.Ok? <==> email in t.users && Verify(password, t.users[email].passwordHash)
    ensures r.Ok? ==> r.value == ResponseFor(secret, t.users[email])
    ensures r.Err? ==> r.error == InvalidCredentials
  {
    if email !in t.users then Err(InvalidCredentials)
    else if !Verify(password, t.users[email].passwordHash) then Err(InvalidCredentials)
    else Ok(ResponseFor(secret, t.users[email]))
  }

  /** Registering a taken email fails with 400 and changes nothing, whatever the
      password, even one that is too short. */
  lemma DuplicateEmailRejected(t: UserTable, email: string, password: string, salt: nat, secret: string)
    requires TableValid(t) && email in t.users
    ensures RegisterSpec(t, email, password, salt, secret) == (t, Err(EmailTaken))
  {
  }

  /** A fresh email with a short password fails with 400 and creates no user. */
  lemma ShortPasswordRejected(t: UserTable, email: string, password: string, salt: nat, secret: string)
    requires TableValid(t) && email !in t.users && Utf16Length(password) < MinPasswordLength
    ensures RegisterSpec(t, email, password, salt, secret) == (t, Err(PasswordTooShort))
  {
  }

  /** The length rule counts UTF-16 code units, as `password.length` does: three
      characters beyond the Basic Multilingual Plane make six units, so such a
      password is long enough for a fresh email. */
  lemma SurrogatePairsCountTwice(t: UserTable, email: string, salt: nat, secret: string)
    requires TableValid(t) && email !in t.users
    ensures var password := "\U{1F600}\U{1F600}\U{1F600}";
      && |password| == 3 && Utf16Length(password) == 6
      && RegisterSpec(t, email, password, salt, secret).1.Ok?
  {
    var password := "\U{1F600}\U{1F600}\U{1F600}";
    assert password[1..][1..][1..] == [];
  }

  /** Registration succeeds exactly for a fresh email with a long enough password;
      it then adds exactly one user, with a fresh id and the hash of the password,
      and answers with that user's id and email and a token that verifies to
      them. */
  lemma RegisterAddsOneUser(t: UserTable, email: string, password: string, salt: nat, secret: string)
    requires TableValid(t)
    ensures var (t', r) := RegisterSpec(t, email, password, salt, secret);
      && (r.Ok? <==> email !in t.users && Utf16Length(password) >= MinPasswordLength)
      && (r.Ok? ==>
            && t'.users == t.users[email := User(t.nextId, email, Hash(password, salt))]
            && (forall e :: e in t.users ==> t.users[e].id != t.nextId)
            && r.value.user == UserInfo(NatToString(t.nextId), email)
            && VerifyToken(secret, r.value.token) == Ok(Claims(NatToString(t.nextId), email)))
      && (r.Err? ==> t' == t)
  {
  }

  /** Logging in right after registering, with the same email and password,
      succeeds and returns the registered user's id and email. */
  lemma LoginAfterRegister(t: UserTable, email: string, password: string, salt: nat, secret: string)
    requires TableValid(t)
    requires RegisterSpec(t, email, password, salt, secret).1.Ok?
    ensures var (t', r) := RegisterSpec(t, email, password, salt, secret);
      LoginSpec(t', email, password, secret) == Ok(r.value)
  {
    VerifyHashIff(password, password, salt);
  }

  /** After registering, any other password is refused with the same message as an
      unknown email. */
  lemma WrongPasswordAfterRegister(t: UserTable, email: string, password: string, wrong: string, salt: nat, secret: string)
    requires TableValid(t)
    requires RegisterSpec(t, email, password, salt, secret).1.Ok?
    requires wrong != password
    ensures LoginSpec(RegisterSpec(t, email, password, salt, secret).0, email, wrong, secret) == Err(InvalidCredentials)
    ensures email !in t.users ==> LoginSpec(t, email, password, secret) == Err(InvalidCredentials)
  {
    VerifyHashIff(wrong, password, salt);
  }

  /** The user collection. */
  class UserStore {
    var users: map<string, User>
    var nextId: nat

    ghost function Table(): UserTable
      reads this
    {
      UserTable(users, nextId)
    }

    ghost predicate Valid()
      reads this
    {
      TableValid(Table())
    }

    constructor ()
      ensures Valid() && users == map[] && nextId == 0
    {
      users := map[];
      nextId := 0;
    }

    /** `register`: `findOne({email})`, the length check, `create`. */
    method Register(email: string, password: string, salt: nat, secret: string) returns (r: Outcome<LoginResponse>)
      requires Valid()
      modifies this
      ensures Valid()
      ensures (Table(), r) == RegisterSpec(old(Table()), email, password, salt, secret)
    {
      if email in users {
        return Err(EmailTaken);
      }
      if Utf16Length(password) < MinPasswordLength {
        return Err(PasswordTooShort);
      }
      var passwordHash := Hash(password, salt);
      var user := User(nextId, email, passwordHash);
      users := users[email := user];
      nextId := nextId + 1;
      r := Ok(ResponseFor(secret, user));
    }

    /** `login`: reads the table and changes nothing. */
    method Login(email: string, password: string, secret: string) returns (r: Outcome<LoginResponse>)
      ensures r == LoginSpec(Table(), email, password, secret)
    {
      if email !in users {
        return Err(InvalidCredentials);
      }
      var user := users[email];
      if !Verify(password, user.passwordHash) {
        return Err(InvalidCredentials);
      }
      r := Ok(ResponseFor(secret, user));
    }
  }
}
