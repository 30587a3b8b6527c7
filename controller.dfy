/** AuthController: registration and login.

    The repository is an object holding the stored users by username; the request body
    of `register` is a user entity the controller changes in place before saving it.
    BCryptPasswordEncoder is given as its two operations; the random salt each encoding
    draws is a parameter of the call. JWTUtil's token generator comes from module Jwt. */
module Controller {
  import opened Wrappers
  import Jwt

  /** The random salt a BCrypt encoding draws (16 bytes in BCrypt). */
  type Salt = seq<bv8>

  datatype PasswordEncoder = PasswordEncoder(
    encode: (Salt, string) -> string,
    matches: (string, string) -> bool)

  /** A stored user, as the repository keeps it. */
  datatype UserRecord = UserRecord(username: string, password: string)

  /** The body of an HTTP response: a plain message or a JSON object of string fields. */
  datatype Body = Message(text: string) | Fields(entries: map<string, string>)

  datatype Response = Response(status: int, body: Body)

  const Ok := 200
  const Unauthorized := 401
  const InvalidCredentials := Response(Unauthorized, Message("Invalid credentials"))
  const RegisteredSuccessfully := Response(Ok, Message("User registered successfully"))

  /** The request body of register and login, with its two accessors' fields. */
  class UserEntity {
    var username: string
    var password: string

    constructor (username: string, password: string)
      ensures this.username == username && this.password == password
    {
      this.username := username;
      this.password := password;
    }
  }

  /** UserRepository: the stored users, each under its own username. */
  class UserRepository {
    var users: map<string, UserRecord>

    /** Every record is stored under its own username, so the user findByUsername returns
        carries the username it was asked for (`FoundUserHasRequestedName`). */
    ghost predicate Valid()
      reads this
    {
      forall name :: name in users ==> users[name].username == name
    }

    constructor ()
      ensures Valid() && users == map[]
    {
      users := map[];
    }

    /** save: stores the entity's current username and password, replacing any record
        already held under that username. */
    method Save(user: UserEntity)
      requires Valid()
      modifies this
      ensures Valid()
      ensures users == old(users)[user.username := UserRecord(user.username, user.password)]
    {
      users := users[user.username := UserRecord(user.username, user.password)];
    }
  }

  /** findByUsername, the query derived from the method name: the stored record whose
      `username` field equals the argument, if there is one. In a store that keeps every
      record under its own username, that is the record found, and the only one. */
  function FindByUsername(users: map<string, UserRecord>, username: string): (found: Option<UserRecord>)
    ensures (forall name :: name in users ==> users[name].username == name) ==>
              (found.Some? <==> exists record :: record in users.Values && record.username == username) &&
              (found.Some? ==> found.value in users.Values && found.value.username == username)
  {
    if username in users then Some(users[username]) else None
  }

  /** In a valid repository, the record found for a username carries that username. */
  lemma FoundUserHasRequestedName(repository: UserRepository, username: string)
    requires repository.Valid()
    ensures var found := FindByUsername(repository.users, username);
            found.Some? ==> found.value.username == username
  {
  }

  /** register: replaces the submitted password with its encoding, saves the entity and
      reports success, whether or not the username was already taken. */
  method Register(repository: UserRepository, encoder: PasswordEncoder, user: UserEntity, salt: Salt)
    returns (response: Response)
    requires repository.Valid()
    modifies user, repository
    ensures repository.Valid()
    ensures user.username == old(user.username)
    ensures user.password == encoder.encode(salt, old(user.password))
    ensures repository.users ==
              old(repository.users)[user.username := UserRecord(user.username, encoder.encode(salt, old(user.password)))]
    ensures response == RegisteredSuccessfully
  {
    user.password := encoder.encode(salt, user.password);
    repository.Save(user);
    response := RegisteredSuccessfully;
  }

  /** login: a token for the submitted username exactly when a user is stored under it and
      the submitted password matches the stored encoding; otherwise the one failure. */
  function Login(users: map<string, UserRecord>, encoder: PasswordEncoder, jwtUtil: Jwt.JwtUtil,
                 username: string, password: string): (r: Response)
    ensures r.status == Ok <==> username in users && encoder.matches(password, users[username].password)
    ensures r.status == Ok ==> r.body == Fields(map["token" := jwtUtil.generateToken(username)])
    ensures r.status != Ok ==> r == InvalidCredentials
  {
    var existingUser := FindByUsername(users, username);
    if existingUser.Some? && encoder.matches(password, existingUser.value.password) then
      Response(Ok, Fields(map["token" := jwtUtil.generateToken(username)]))
    else
      InvalidCredentials
  }

  /** An unknown username never reaches the password check: the outcome does not depend on
      the encoder, nor on the password submitted. */
  lemma UnknownUserSkipsPasswordCheck(users: map<string, UserRecord>, encoder: PasswordEncoder,
                                      otherEncoder: PasswordEncoder, jwtUtil: Jwt.JwtUtil,
                                      username: string, password: string, otherPassword: string)
    requires username !in users
    ensures Login(users, encoder, jwtUtil, username, password) ==
            Login(users, otherEncoder, jwtUtil, username, otherPassword) == InvalidCredentials
  {
  }

  /** A missing user and a wrong password are indistinguishable to the client. */
  lemma FailuresIndistinguishable(users: map<string, UserRecord>, encoder: PasswordEncoder,
                                  jwtUtil: Jwt.JwtUtil, unknown: string, password: string,
                                  known: string, wrongPassword: string)
    requires unknown !in users
    requires known in users && !encoder.matches(wrongPassword, users[known].password)
    ensures Login(users, encoder, jwtUtil, unknown, password) ==
            Login(users, encoder, jwtUtil, known, wrongPassword)
  {
  }

  /** Registering and then logging in with the same password yields a token for the
      username, provided the encoder accepts a password against its own encoding. */
  lemma LoginAfterRegister(users: map<string, UserRecord>, encoder: PasswordEncoder,
                           jwtUtil: Jwt.JwtUtil, salt: Salt, username: string, password: string)
    requires encoder.matches(password, encoder.encode(salt, password))
    ensures Login(users[username := UserRecord(username, encoder.encode(salt, password))],
                  encoder, jwtUtil, username, password) ==
            Response(Ok, Fields(map["token" := jwtUtil.generateToken(username)]))
  {
  }

  /** A second registration under the same username replaces the first: only the newer
      password logs in once the encoder tells the two apart. */
  lemma ReRegistrationReplaces(users: map<string, UserRecord>, encoder: PasswordEncoder,
                               jwtUtil: Jwt.JwtUtil, salt: Salt, otherSalt: Salt,
                               username: string, first: string, second: string)
    requires !encoder.matches(first, encoder.encode(otherSalt, second))
    ensures var stored := users[username := UserRecord(username, encoder.encode(salt, first))]
                               [username := UserRecord(username, encoder.encode(otherSalt, second))];
            Login(stored, encoder, jwtUtil, username, first) == InvalidCredentials
  {
  }
}
