/**
 * The authentication service: registration and login over the users table.
 *
 * The password encoder and the token generator are collaborators whose internals
 * (salted hashing, signed tokens) are not modelled: they are given as functions.
 * The encoder's randomness is its salt, an explicit argument.
 */
module Authentication {
  import opened Wrappers
  import opened Entities
  import opened Errors
  import opened Persistence

  datatype RegisterRequest = RegisterRequest(name: string, email: string, password: string)

  datatype LoginRequest = LoginRequest(email: string, password: string)

  datatype AuthResponse = AuthResponse(token: string, tokenType: string)

  /** The default token type of every response. */
  const BearerTokenType := "Bearer"

  const DuplicateEmailMessage := "Email already exists"

  const InvalidCredentialsMessage := "Invalid email or password"

  type Salt = nat

  /**
   * The collaborators: encode(raw, salt) is the password encoder, matches(raw,
   * encoded) its verifier, and generateToken(subject, roleName) the token generator.
   */
  datatype Crypto = Crypto(
    encode: (string, Salt) -> string,
    matches: (string, string) -> bool,
    generateToken: (string, string) -> string)

  /** What a password encoder promises: a password matches every encoding of itself. */
  ghost predicate EncoderSound(crypto: Crypto) {
    forall raw, salt :: crypto.matches(raw, crypto.encode(raw, salt))
  }

  /** AuthResponse.builder().token(token).build(): the token type takes its default. */
  function Respond(token: string): (r: AuthResponse)
    ensures r.token == token && r.tokenType == BearerTokenType
  {
    AuthResponse(token, BearerTokenType)
  }

  /** The token issued for a stored user: their email and their role's name. */
  function TokenFor(crypto: Crypto, user: User): string {
    crypto.generateToken(user.email, RoleName(user.role))
  }

  /** The user register builds: the requested name and email, the encoded password, role USER. */
  function NewUser(id: UserId, request: RegisterRequest, encoded: string): User {
    User(id, request.name, request.email, encoded, USER)
  }

  /** A stored user with this email whose stored password the raw password matches. */
  ghost predicate Authenticates(users: map<UserId, User>, crypto: Crypto, request: LoginRequest, id: UserId) {
    id in users && users[id].email == request.email && crypto.matches(request.password, users[id].password)
  }

  /**
   * login: succeeds exactly when a stored user has the email and the password matches
   * its stored encoding, and then returns the token for that user's email and role.
   * An unknown email and a wrong password fail with one and the same error.
   * It reads the users table and writes nothing.
   */
  function Login(users: map<UserId, User>, crypto: Crypto, request: LoginRequest): (r: Result<AuthResponse, Error>)
    requires UsersWellFormed(users)
    ensures r.Success? <==> exists id :: Authenticates(users, crypto, request, id)
    ensures r.Success? ==> exists id :: Authenticates(users, crypto, request, id) && r.value == Respond(TokenFor(crypto, users[id]))
    ensures r.Failure? ==> r.error == Unauthorized(InvalidCredentialsMessage)
    ensures r.Success? ==> r.value.tokenType == BearerTokenType
  {
    match FindByEmail(users, request.email)
    case None => Failure(Unauthorized(InvalidCredentialsMessage))
    case Some(user) =>
      if !crypto.matches(request.password, user.password) then
        Failure(Unauthorized(InvalidCredentialsMessage))
      else
        assert Authenticates(users, crypto, request, user.id);
        Success(Respond(TokenFor(crypto, user)))
  }

  class AuthService {
    const db: Database
    const crypto: Crypto

    constructor (db: Database, crypto: Crypto)
      ensures this.db == db && this.crypto == crypto
    {
      this.db := db;
      this.crypto := crypto;
    }

    /**
     * register: refuses an email that is already taken and stores nothing; otherwise
     * stores exactly one new user with the requested name and email, the encoding of
     * the password and role USER, and returns the token for that email and "USER".
     */
    method Register(request: RegisterRequest, freshId: UserId, salt: Salt) returns (r: Result<AuthResponse, Error>)
      requires db.Valid()
      requires freshId !in db.users
      modifies db`users
      ensures db.Valid()
      ensures ExistsByEmail(old(db.users), request.email) ==>
                db.users == old(db.users) && r == Failure(DuplicateResource(DuplicateEmailMessage))
      ensures !ExistsByEmail(old(db.users), request.email) ==>
                && db.users == Registered(old(db.users), crypto, request, freshId, salt)
                && r == Success(AuthResponse(crypto.generateToken(request.email, "USER"), BearerTokenType))
    {
      if ExistsByEmail(db.users, request.email) {
        return Failure(DuplicateResource(DuplicateEmailMessage));
      }
      var user := NewUser(freshId, request, crypto.encode(request.password, salt));
      var saved := db.SaveUser(user);
      assert saved.Success?;
      r := Success(Respond(TokenFor(crypto, user)));
    }
  }

  /** The table register leaves behind when the email is free. */
  function Registered(users: map<UserId, User>, crypto: Crypto, request: RegisterRequest, freshId: UserId, salt: Salt)
    : map<UserId, User>
  {
    users[freshId := NewUser(freshId, request, crypto.encode(request.password, salt))]
  }

  /** A successful register keeps the users table well formed and grows the emails by exactly one. */
  lemma RegisterAddsOneEmail(users: map<UserId, User>, crypto: Crypto, request: RegisterRequest,
                             freshId: UserId, salt: Salt)
    requires UsersWellFormed(users)
    requires freshId !in users
    requires !ExistsByEmail(users, request.email)
    ensures UsersWellFormed(Registered(users, crypto, request, freshId, salt))
    ensures Emails(Registered(users, crypto, request, freshId, salt)) == Emails(users) + {request.email}
    ensures |Registered(users, crypto, request, freshId, salt)| == |users| + 1
  {
    var after := Registered(users, crypto, request, freshId, salt);
    forall e ensures e in Emails(after) <==> e in Emails(users) + {request.email} {
      if e in Emails(after) {
        var id :| id in after && after[id].email == e;
        if id != freshId {
          assert e in Emails(users);
        }
      }
      if e in Emails(users) {
        var id :| id in users && users[id].email == e;
        assert after[id].email == e;
      }
      if e == request.email {
        assert after[freshId].email == e;
      }
    }
  }

  /** Registering an email a second time is refused: after a register the email is taken. */
  lemma RegisteredEmailIsTaken(users: map<UserId, User>, crypto: Crypto, request: RegisterRequest,
                               freshId: UserId, salt: Salt)
    ensures ExistsByEmail(Registered(users, crypto, request, freshId, salt), request.email)
  {
    assert Registered(users, crypto, request, freshId, salt)[freshId].email == request.email;
  }

  /**
   * With a sound encoder, logging in with the credentials just registered succeeds
   * and yields, like register, a token generated for that email and the role USER.
   */
  lemma RegisterThenLogin(users: map<UserId, User>, crypto: Crypto, request: RegisterRequest,
                          freshId: UserId, salt: Salt)
    requires EncoderSound(crypto)
    requires UsersWellFormed(users)
    requires freshId !in users
    requires !ExistsByEmail(users, request.email)
    ensures UsersWellFormed(Registered(users, crypto, request, freshId, salt))
    ensures Login(Registered(users, crypto, request, freshId, salt), crypto, LoginRequest(request.email, request.password))
         == Success(AuthResponse(crypto.generateToken(request.email, "USER"), BearerTokenType))
  {
    var after := Registered(users, crypto, request, freshId, salt);
    RegisterAddsOneEmail(users, crypto, request, freshId, salt);
    RegisteredEmailIsTaken(users, crypto, request, freshId, salt);
    var found := FindByEmail(after, request.email);
    assert found == Some(after[freshId]);
    assert crypto.matches(request.password, crypto.encode(request.password, salt));
  }

  /** A failed login tells an unknown email and a wrong password apart in no way. */
  lemma LoginFailuresIndistinguishable(users: map<UserId, User>, crypto: Crypto, unknown: LoginRequest, wrong: LoginRequest)
    requires UsersWellFormed(users)
    requires !ExistsByEmail(users, unknown.email)
    requires ExistsByEmail(users, wrong.email)
    requires forall id :: id in users && users[id].email == wrong.email ==> !crypto.matches(wrong.password, users[id].password)
    ensures Login(users, crypto, unknown) == Login(users, crypto, wrong) == Failure(Unauthorized(InvalidCredentialsMessage))
  {
  }
}
