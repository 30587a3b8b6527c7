/** The per-request authentication decision of JwtRequestFilter.doFilterInternal.

    The filter's collaborators (JWTUtil and the user-details service) are given as
    values of total functions; a collaborator call that throws is the result `Threw`,
    and the filter, which catches nothing, then ends with the exception (`Aborted`).
    The thread's security context and the filter chain are objects the filter changes.
    `Decide` is the specification: the calls the filter makes, in order, the
    authentication held by the context afterwards, and the branch it ends in. */
module Jwt {
  import opened Wrappers
  import opened JavaString

  /** The result of calling a collaborator: a returned value, or an exception. */
  datatype Attempt<T> = Returned(value: T) | Threw

  /** The user as loaded by the user-details service. */
  datatype UserDetails = UserDetails(username: string, password: string, authorities: seq<string>)

  /** Spring's UsernamePasswordAuthenticationToken; `credentials == None` is a null credential. */
  datatype Authentication = UsernamePasswordAuthenticationToken(
    principal: UserDetails,
    credentials: Option<string>,
    authorities: seq<string>,
    authenticated: bool)

  /** What the filter reads of a request: its URI and the value of its Authorization header
      (`None` when the header is absent). */
  datatype Request = Request(uri: string, authorization: Option<string>)

  /** JWTUtil: the two operations the filter calls, and the one login calls. */
  datatype JwtUtil = JwtUtil(
    extractUsername: string -> Attempt<Option<string>>,
    validateToken: (string, UserDetails) -> Attempt<bool>,
    generateToken: string -> string)

  /** CustomUserDetailsService. */
  datatype UserDetailsService = UserDetailsService(loadUserByUsername: string -> Attempt<UserDetails>)

  /** The observable steps of one run of the filter, in the order the filter takes them. */
  datatype Call =
    | GetHeader(name: string)
    | ExtractUsername(jwt: string)
    | GetAuthentication
    | LoadUserByUsername(username: string)
    | ValidateToken(jwt: string, userDetails: UserDetails)
    | SetAuthentication(authentication: Authentication)
    | DoFilter

  /** The filter's three ways of completing, and the exception that escapes it. */
  datatype FilterOutcome = Bypassed | PassedThrough | Authenticated | Aborted

  datatype Decision = Decision(calls: seq<Call>, authentication: Option<Authentication>, outcome: FilterOutcome)

  const BearerPrefix: string := "Bearer "

  /** The two paths the filter forwards without looking at the request. */
  predicate IsPublicPath(path: string)
  {
    path == "/register" || path == "/login"
  }

  /** The token carried by an Authorization header: the header with "Bearer " removed. */
  function BearerToken(header: Option<string>): (jwt: Option<string>)
    ensures jwt.Some? <==> header.Some? && |BearerPrefix| <= |header.value| &&
                           header.value[..|BearerPrefix|] == BearerPrefix
    ensures jwt.Some? ==> header.value == BearerPrefix + jwt.value
  {
    if header.Some? && StartsWith(header.value, BearerPrefix) then Some(header.value[7..]) else None
  }

  /** The authentication the filter stores: the loaded user, a null credential and the
      user's authorities (the three-argument constructor marks it authenticated). */
  function AuthenticationFor(details: UserDetails): (auth: Authentication)
  {
    UsernamePasswordAuthenticationToken(details, None, details.authorities, true)
  }

  predicate IsForward(c: Call) { c.DoFilter? }

  predicate IsContextWrite(c: Call) { c.SetAuthentication? }

  /** The two calls made only with an empty context: the user lookup and the token validation. */
  predicate IsLookupOrValidation(c: Call) { c.LoadUserByUsername? || c.ValidateToken? }

  /** The number of calls in `calls` that satisfy `p`. */
  function Count(calls: seq<Call>, p: Call -> bool): (n: nat)
  {
    if calls == [] then 0 else (if p(calls[0]) then 1 else 0) + Count(calls[1..], p)
  }

  lemma {:induction false} CountAppend(a: seq<Call>, b: seq<Call>, p: Call -> bool)
    ensures Count(a + b, p) == Count(a, p) + Count(b, p)
  {
    if a == [] {
      assert a + b == b;
    } else {
      assert (a + b)[1..] == a[1..] + b;
      CountAppend(a[1..], b, p);
    }
  }

  /** The request carries no username: no bearer token, or JWTUtil finds none in it. */
  predicate NoUsername(util: JwtUtil, request: Request)
  {
    match BearerToken(request.authorization)
    case None => true
    case Some(jwt) => util.extractUsername(jwt) == Returned(None)
  }

  /** The chain of checks that vouches for `details`: a non-public path, a bearer token,
      a username in it, `details` loaded for that username and the token valid for them. */
  predicate Vouches(util: JwtUtil, service: UserDetailsService, request: Request, details: UserDetails)
  {
    !IsPublicPath(request.uri) &&
    match BearerToken(request.authorization)
    case None => false
    case Some(jwt) =>
      match util.extractUsername(jwt)
      case Returned(Some(username)) =>
        service.loadUserByUsername(username) == Returned(details) &&
        util.validateToken(jwt, details) == Returned(true)
      case _ => false
  }

  /** `c` is a collaborator call that throws. */
  predicate Throws(util: JwtUtil, service: UserDetailsService, c: Call)
  {
    match c
    case ExtractUsername(jwt) => util.extractUsername(jwt).Threw?
    case LoadUserByUsername(username) => service.loadUserByUsername(username).Threw?
    case ValidateToken(jwt, details) => util.validateToken(jwt, details).Threw?
    case _ => false
  }

  /** One run of the filter on `request` when the context holds `current`. */
  function Decide(util: JwtUtil, service: UserDetailsService, request: Request,
                  current: Option<Authentication>): (r: Decision)
    ensures r.outcome == Bypassed <==> request.uri == "/register" || request.uri == "/login"
    ensures r.outcome == Bypassed ==> r.calls == [DoFilter] && r.authentication == current
    ensures r.outcome != Aborted ==> r.calls != [] && r.calls[|r.calls| - 1] == DoFilter
    ensures forall i :: 0 <= i < |r.calls| - 1 ==> !IsForward(r.calls[i])
    ensures forall i :: 0 <= i < |r.calls| && IsContextWrite(r.calls[i]) ==>
              r.outcome == Authenticated && i == |r.calls| - 2
    ensures forall i :: 0 <= i < |r.calls| && Throws(util, service, r.calls[i]) ==>
              r.outcome == Aborted && i == |r.calls| - 1
    ensures r.outcome == Aborted ==>
              r.calls != [] && Throws(util, service, r.calls[|r.calls| - 1]) &&
              r.authentication == current
    ensures r.outcome == Authenticated <==> r.authentication != current
    ensures r.authentication != current ==>
              current == None && r.authentication.Some? &&
              r.authentication.value == AuthenticationFor(r.authentication.value.principal) &&
              Vouches(util, service, request, r.authentication.value.principal)
    ensures !IsPublicPath(request.uri) && NoUsername(util, request) ==>
              r.outcome == PassedThrough && r.authentication == current &&
              forall c :: c in r.calls ==> !IsLookupOrValidation(c)
    ensures current.Some? ==>
              r.authentication == current && forall c :: c in r.calls ==> !IsLookupOrValidation(c)
  {
    if IsPublicPath(request.uri) then
      Decision([DoFilter], current, Bypassed)
    else
      var header := GetHeader("Authorization");
      match BearerToken(request.authorization)
      case None => Decision([header, DoFilter], current, PassedThrough)
      case Some(jwt) =>
        var extract := ExtractUsername(jwt);
        match util.extractUsername(jwt)
        case Threw => Decision([header, extract], current, Aborted)
        case Returned(None) => Decision([header, extract, DoFilter], current, PassedThrough)
        case Returned(Some(username)) =>
          if current.Some? then Decision([header, extract, GetAuthentication, DoFilter], current, PassedThrough)
          else
            var load := LoadUserByUsername(username);
            match service.loadUserByUsername(username)
            case Threw => Decision([header, extract, GetAuthentication, load], current, Aborted)
            case Returned(details) =>
              var validate := ValidateToken(jwt, details);
              match util.validateToken(jwt, details)
              case Threw => Decision([header, extract, GetAuthentication, load, validate], current, Aborted)
              case Returned(false) =>
                Decision([header, extract, GetAuthentication, load, validate, DoFilter], current, PassedThrough)
              case Returned(true) =>
                var auth := AuthenticationFor(details);
                Decision([header, extract, GetAuthentication, load, validate, SetAuthentication(auth), DoFilter],
                         Some(auth), Authenticated)
  }

  /** Every run that completes forwards the request exactly once, as its last step; a run
      that ends in a collaborator's exception never forwards it. */
  lemma {:induction false} ForwardsExactlyOnce(util: JwtUtil, service: UserDetailsService,
                                               request: Request, current: Option<Authentication>)
    ensures var r := Decide(util, service, request, current);
            Count(r.calls, IsForward) == if r.outcome == Aborted then 0 else 1
  {
    var r := Decide(util, service, request, current);
    var n := |r.calls|;
    if r.outcome == Aborted {
      NoneOf(r.calls, IsForward);
    } else {
      assert r.calls == r.calls[..n - 1] + [DoFilter];
      NoneOf(r.calls[..n - 1], IsForward);
      CountAppend(r.calls[..n - 1], [DoFilter], IsForward);
    }
  }

  /** The context is written at most once per run, and never when it already holds an
      authentication. */
  lemma {:induction false} ContextSetAtMostOnce(util: JwtUtil, service: UserDetailsService,
                                                request: Request, current: Option<Authentication>)
    ensures var r := Decide(util, service, request, current);
            Count(r.calls, IsContextWrite) == if r.outcome == Authenticated then 1 else 0
  {
    var r := Decide(util, service, request, current);
    var n := |r.calls|;
    if r.outcome == Authenticated {
      var auth := r.authentication.value;
      assert r.calls == r.calls[..n - 2] + [SetAuthentication(auth)] + [DoFilter];
      NoneOf(r.calls[..n - 2], IsContextWrite);
      CountAppend(r.calls[..n - 2], [SetAuthentication(auth)], IsContextWrite);
      CountAppend(r.calls[..n - 2] + [SetAuthentication(auth)], [DoFilter], IsContextWrite);
    } else {
      NoneOf(r.calls, IsContextWrite);
    }
  }

  /** A trace in which no call satisfies `p` counts none. */
  lemma {:induction false} NoneOf(calls: seq<Call>, p: Call -> bool)
    requires forall i :: 0 <= i < |calls| ==> !p(calls[i])
    ensures Count(calls, p) == 0
  {
    if calls != [] {
      NoneOf(calls[1..], p);
    }
  }

  /** Stripping the scheme inverts prefixing it. */
  lemma BearerTokenOfPrefixed(jwt: string)
    ensures BearerToken(Some(BearerPrefix + jwt)) == Some(jwt)
  {
    var header := BearerPrefix + jwt;
    assert header[..|BearerPrefix|] == BearerPrefix;
    assert header[|BearerPrefix|..] == jwt;
  }

  /** The scheme must be exactly "Bearer " followed by the token: a missing header, another
      scheme, another case or a missing space yields no token. */
  lemma BearerTokenRejects()
    ensures BearerToken(None) == None
    ensures BearerToken(Some("Basic abc")) == None
    ensures BearerToken(Some("bearer abc")) == None
    ensures BearerToken(Some("Bearer")) == None
    ensures BearerToken(Some("Bearerabc")) == None
  {
    assert "bearer abc"[0] != BearerPrefix[0];
    assert "Bearerabc"[6] != BearerPrefix[6];
  }

  /** The only token the filter hands to JWTUtil is the Authorization header minus its
      "Bearer " prefix; a request on a public path is never inspected. */
  lemma TokenOnlyFromBearerHeader(util: JwtUtil, service: UserDetailsService,
                                  request: Request, current: Option<Authentication>)
    ensures var r := Decide(util, service, request, current);
            (IsPublicPath(request.uri) ==> forall c :: c in r.calls ==> !c.GetHeader? && !c.ExtractUsername?) &&
            (forall c :: c in r.calls && c.ExtractUsername? ==>
               request.authorization == Some(BearerPrefix + c.jwt)) &&
            (!IsPublicPath(request.uri) ==> r.calls[0] == GetHeader("Authorization"))
  {
  }

  /** Paths that merely resemble the public ones take the token-checking branch. */
  lemma NearMissPathsAreChecked(util: JwtUtil, service: UserDetailsService,
                                header: Option<string>, current: Option<Authentication>)
    ensures forall path | path in ["/users", "/login/x", "/register/", "/Login", "login", ""] ::
              Decide(util, service, Request(path, header), current).outcome != Bypassed
  {
  }

  /** On a public path neither the header nor any collaborator influences the run. */
  lemma BypassIgnoresRequestAndCollaborators(util: JwtUtil, service: UserDetailsService,
                                             otherUtil: JwtUtil, otherService: UserDetailsService,
                                             path: string, header: Option<string>, otherHeader: Option<string>,
                                             current: Option<Authentication>)
    requires IsPublicPath(path)
    ensures Decide(util, service, Request(path, header), current) ==
            Decide(otherUtil, otherService, Request(path, otherHeader), current)
  {
  }

  /** Once the checks vouch for a user and the context is empty, the run stores exactly that
      user's authentication (the converse of the contract of `Decide`). */
  lemma VouchedUserIsAuthenticated(util: JwtUtil, service: UserDetailsService,
                                   request: Request, details: UserDetails)
    requires Vouches(util, service, request, details)
    ensures var r := Decide(util, service, request, None);
            r.outcome == Authenticated && r.authentication == Some(AuthenticationFor(details))
  {
  }

  /** A token that fails validation leaves the context as it was, and the request is still
      forwarded: the filter never rejects. */
  lemma FailedValidationPassesThrough(util: JwtUtil, service: UserDetailsService, request: Request,
                                      username: string, details: UserDetails)
    requires !IsPublicPath(request.uri)
    requires BearerToken(request.authorization).Some?
    requires util.extractUsername(BearerToken(request.authorization).value) == Returned(Some(username))
    requires service.loadUserByUsername(username) == Returned(details)
    requires util.validateToken(BearerToken(request.authorization).value, details) == Returned(false)
    ensures var r := Decide(util, service, request, None);
            r.outcome == PassedThrough && r.authentication == None &&
            Count(r.calls, IsForward) == 1
  {
    ForwardsExactlyOnce(util, service, request, None);
  }

  /** With collaborators that never throw, every run completes (and so forwards once). */
  lemma TotalCollaboratorsNeverAbort(util: JwtUtil, service: UserDetailsService,
                                     request: Request, current: Option<Authentication>)
    requires forall jwt :: util.extractUsername(jwt).Returned?
    requires forall username :: service.loadUserByUsername(username).Returned?
    requires forall jwt, details :: util.validateToken(jwt, details).Returned?
    ensures Decide(util, service, request, current).outcome != Aborted
  {
  }

  /** Each collaborator call the filter makes propagates its exception: when the call the
      inputs lead to throws, the run is aborted and the context keeps its value. */
  lemma CollaboratorExceptionAborts(util: JwtUtil, service: UserDetailsService,
                                    request: Request, current: Option<Authentication>)
    requires !IsPublicPath(request.uri) && BearerToken(request.authorization).Some?
    ensures var jwt := BearerToken(request.authorization).value;
            var r := Decide(util, service, request, current);
            var extracted := util.extractUsername(jwt);
            (extracted.Threw? ==> r.outcome == Aborted && r.authentication == current) &&
            (extracted.Returned? && extracted.value.Some? && current.None? ==>
               var loaded := service.loadUserByUsername(extracted.value.value);
               (loaded.Threw? ==> r.outcome == Aborted && r.authentication == current) &&
               (loaded.Returned? && util.validateToken(jwt, loaded.value).Threw? ==>
                  r.outcome == Aborted && r.authentication == current))
  {
  }

  /** The security context of the request's thread: at most one authentication. */
  class SecurityContext {
    var authentication: Option<Authentication>

    constructor ()
      ensures authentication == None
    {
      authentication := None;
    }
  }

  /** The rest of the filter chain, recording each request forwarded to it. */
  class FilterChain {
    var forwarded: seq<Request>

    constructor ()
      ensures forwarded == []
    {
      forwarded := [];
    }

    method DoFilter(request: Request)
      modifies this
      ensures forwarded == old(forwarded) + [request]
    {
      forwarded := forwarded + [request];
    }
  }

  class JwtRequestFilter {
    const jwtUtil: JwtUtil
    const userDetailsService: UserDetailsService
    /** The steps this filter has taken, over all the requests it has filtered. */
    ghost var calls: seq<Call>

    constructor (jwtUtil: JwtUtil, userDetailsService: UserDetailsService)
      ensures this.jwtUtil == jwtUtil && this.userDetailsService == userDetailsService
      ensures calls == []
    {
      this.jwtUtil := jwtUtil;
      this.userDetailsService := userDetailsService;
      calls := [];
    }

    /** Filters one request: the context ends as `Decide` says, the steps taken are those of
        `Decide`, and the chain receives the request once unless a collaborator threw. */
    method DoFilterInternal(request: Request, context: SecurityContext, chain: FilterChain)
      returns (outcome: FilterOutcome)
      modifies this`calls, context, chain
      ensures var d := Decide(jwtUtil, userDetailsService, request, old(context.authentication));
              outcome == d.outcome &&
              context.authentication == d.authentication &&
              calls == old(calls) + d.calls &&
              chain.forwarded == old(chain.forwarded) + (if outcome == Aborted then [] else [request])
    {
      var path := request.uri;
      if path == "/register" || path == "/login" {
        calls := calls + [DoFilter];
        chain.DoFilter(request);
        return Bypassed;
      }

      var authorizationHeader := request.authorization;
      ghost var steps := [GetHeader("Authorization")];
      var username: Option<string> := None;
      var jwt: Option<string> := None;

      if authorizationHeader.Some? && StartsWith(authorizationHeader.value, "Bearer ") {
        jwt := Some(authorizationHeader.value[7..]);
        steps := steps + [ExtractUsername(jwt.value)];
        var extracted := jwtUtil.extractUsername(jwt.value);
        if extracted.Threw? {
          calls := calls + steps;
          return Aborted;
        }
        username := extracted.value;
      }

      outcome := PassedThrough;
      if username.Some? {
        steps := steps + [GetAuthentication];
        if context.authentication == None {
          steps := steps + [LoadUserByUsername(username.value)];
          var loaded := userDetailsService.loadUserByUsername(username.value);
          if loaded.Threw? {
            calls := calls + steps;
            return Aborted;
          }
          var userDetails := loaded.value;
          steps := steps + [ValidateToken(jwt.value, userDetails)];
          var valid := jwtUtil.validateToken(jwt.value, userDetails);
          if valid.Threw? {
            calls := calls + steps;
            return Aborted;
          }
          if valid.value {
            var token := UsernamePasswordAuthenticationToken(userDetails, None, userDetails.authorities, true);
            steps := steps + [SetAuthentication(token)];
            context.authentication := Some(token);
            outcome := Authenticated;
          }
        }
      }
      calls := calls + (steps + [DoFilter]);
      chain.DoFilter(request);
    }
  }
}
