/** Register, log in, then call a protected path with the issued token: the two cores together.
    What links them is stated as requirements on the collaborators: the token generator's
    tokens name their subject, and the user-details service loads the registered user. */
module Scenario {
  import opened Wrappers
  import opened Jwt
  import opened Controller

  /** A token issued by login, presented as "Bearer <token>" on a protected path to a request
      whose context is empty, authenticates the user the service loads for that username. */
  lemma IssuedTokenAuthenticates(users: map<string, UserRecord>, encoder: PasswordEncoder,
                                 util: JwtUtil, service: UserDetailsService,
                                 username: string, password: string, path: string, details: UserDetails)
    requires Login(users, encoder, util, username, password).status == Ok
    requires !IsPublicPath(path)
    requires util.extractUsername(util.generateToken(username)) == Returned(Some(username))
    requires service.loadUserByUsername(username) == Returned(details)
    requires util.validateToken(util.generateToken(username), details) == Returned(true)
    ensures var token := Login(users, encoder, util, username, password).body.entries["token"];
            var r := Decide(util, service, Request(path, Some(BearerPrefix + token)), None);
            r.outcome == Authenticated && r.authentication == Some(AuthenticationFor(details))
  {
    var token := util.generateToken(username);
    BearerTokenOfPrefixed(token);
    VouchedUserIsAuthenticated(util, service, Request(path, Some(BearerPrefix + token)), details);
  }

  /** The first half of the walk-through for user "alice": registration, then a login with a
      wrong and one with the right password. */
  method AliceRegistersAndLogsIn(encoder: PasswordEncoder, util: JwtUtil, salt: Salt)
    returns (registered: Response, rejected: Response, accepted: Response)
    requires encoder.matches("pw1", encoder.encode(salt, "pw1"))
    requires !encoder.matches("wrongpw", encoder.encode(salt, "pw1"))
    ensures registered == RegisteredSuccessfully
    ensures rejected == InvalidCredentials
    ensures accepted == Response(Ok, Fields(map["token" := util.generateToken("alice")]))
  {
    var repository := new UserRepository();
    var alice := new UserEntity("alice", "pw1");
    registered := Register(repository, encoder, alice, salt);
    rejected := Login(repository.users, encoder, util, "alice", "wrongpw");
    accepted := Login(repository.users, encoder, util, "alice", "pw1");
    LoginAfterRegister(map[], encoder, util, salt, "alice", "pw1");
  }

  /** The second half: two requests to "/users", one with alice's token and one without a
      header, each starting with an empty security context. */
  method AliceCallsUsers(util: JwtUtil, service: UserDetailsService, details: UserDetails)
    returns (withToken: FilterOutcome, identity: Option<Authentication>,
             withoutHeader: FilterOutcome, forwarded: seq<Request>)
    requires util.extractUsername(util.generateToken("alice")) == Returned(Some("alice"))
    requires service.loadUserByUsername("alice") == Returned(details) && details.username == "alice"
    requires util.validateToken(util.generateToken("alice"), details) == Returned(true)
    ensures withToken == Authenticated && identity == Some(AuthenticationFor(details))
    ensures identity.Some? && identity.value.principal.username == "alice"
    ensures withoutHeader == PassedThrough
    ensures forwarded == [Request("/users", Some(BearerPrefix + util.generateToken("alice"))),
                          Request("/users", None)]
  {
    var filter := new JwtRequestFilter(util, service);
    var chain := new FilterChain();

    var token := util.generateToken("alice");
    var first := Request("/users", Some("Bearer " + token));
    var context := new SecurityContext();
    BearerTokenOfPrefixed(token);
    VouchedUserIsAuthenticated(util, service, first, details);
    withToken := filter.DoFilterInternal(first, context, chain);
    identity := context.authentication;

    var second := Request("/users", None);
    context := new SecurityContext();
    withoutHeader := filter.DoFilterInternal(second, context, chain);
    forwarded := chain.forwarded;
  }
}
