/**
 * The two request guards: `authMiddleware` accepts a request whose
 * `Authorization` header holds a Bearer token that verifies, stores the
 * token's payload as the request's user and calls the next handler;
 * `adminMiddleware` calls the next handler only for a user whose role is
 * `admin`. What a guard does to a request is recorded as a trace of events.
 */
module AuthMiddleware {
  import opened Options
  import opened Jwt

  const BearerPrefix := "Bearer "

  const NoTokenError := "Unauthorized - No token provided"
  const InvalidTokenError := "Unauthorized - Invalid token"
  const AdminRequiredError := "Forbidden - Admin access required"

  datatype Rejection = Rejection(status: int, error: string)

  /** What a guard does to the request context, in order. */
  datatype Event = SetUser(payload: TokenPayload) | CallNext | Respond(rejection: Rejection)

  predicate StartsWith(s: string, prefix: string) {
    |prefix| <= |s| && s[..|prefix|] == prefix
  }

  /** The token of a Bearer header: everything after the seven-character prefix. */
  function BearerToken(header: Option<string>): (token: Option<string>)
    ensures token.Some? <==> header.Some? && StartsWith(header.value, BearerPrefix)
    ensures token.Some? ==> BearerPrefix + token.value == header.value
    ensures token.Some? ==> |token.value| == |header.value| - 7
  {
    if header.Some? && StartsWith(header.value, BearerPrefix) then
      var h := header.value;
      assert BearerPrefix + h[7..] == h by {
        assert h == h[..7] + h[7..];
      }
      Some(h[7..])
    else
      None
  }

  /** The events `authMiddleware` produces. */
  function AuthEvents(header: Option<string>, verify: Verifier): seq<Event> {
    match BearerToken(header)
    case None => [Respond(Rejection(401, NoTokenError))]
    case Some(token) =>
      match verify(token)
      case None => [Respond(Rejection(401, InvalidTokenError))]
      case Some(payload) => [SetUser(payload), CallNext]
  }

  /** The events `adminMiddleware` produces for the request's user. */
  function AdminEvents(user: Option<TokenPayload>): seq<Event> {
    if user.Some? && user.value.role == "admin" then [CallNext]
    else [Respond(Rejection(403, AdminRequiredError))]
  }

  /** The payload the header's token verifies to, if it has one. */
  function Authenticated(header: Option<string>, verify: Verifier): Option<TokenPayload> {
    if BearerToken(header).Some? then verify(BearerToken(header).value) else None
  }

  /** The request context: the user slot and the trace of what the guards did. */
  class Context {
    var user: Option<TokenPayload>
    var events: seq<Event>

    constructor ()
      ensures user == None && events == []
    {
      user := None;
      events := [];
    }
  }

  method Authenticate(c: Context, header: Option<string>, verify: Verifier)
    modifies c
    ensures c.events == old(c.events) + AuthEvents(header, verify)
    ensures c.user == (if Authenticated(header, verify).Some? then Authenticated(header, verify) else old(c.user))
  {
    if header.None? || !StartsWith(header.value, BearerPrefix) {
      c.events := c.events + [Respond(Rejection(401, NoTokenError))];
      return;
    }
    var token := header.value[7..];
    var payload := verify(token);
    if payload.None? {
      c.events := c.events + [Respond(Rejection(401, InvalidTokenError))];
      return;
    }
    c.user := payload;
    c.events := c.events + [SetUser(payload.value)];
    c.events := c.events + [CallNext];
  }

  method RequireAdmin(c: Context)
    modifies c
    ensures c.user == old(c.user)
    ensures c.events == old(c.events) + AdminEvents(c.user)
  {
    if c.user.None? || c.user.value.role != "admin" {
      c.events := c.events + [Respond(Rejection(403, AdminRequiredError))];
      return;
    }
    c.events := c.events + [CallNext];
  }

  /** An admin route: `authMiddleware`, whose `next` is `adminMiddleware`. */
  method GuardAdminRoute(c: Context, header: Option<string>, verify: Verifier)
    modifies c
    ensures c.events == old(c.events) + AdminRouteEvents(header, verify)
    ensures c.user == (if Authenticated(header, verify).Some? then Authenticated(header, verify) else old(c.user))
  {
    Authenticate(c, header, verify);
    if Authenticated(header, verify).Some? {
      RequireAdmin(c);
    }
  }

  function AdminRouteEvents(header: Option<string>, verify: Verifier): seq<Event> {
    var auth := AuthEvents(header, verify);
    if CallNext in auth then auth + AdminEvents(Authenticated(header, verify)) else auth
  }

  /** Whether a trace ends by handing the request on. */
  predicate HandsOn(events: seq<Event>) {
    |events| > 0 && events[|events| - 1] == CallNext
  }

  /**
   * `authMiddleware` calls `next` exactly when the header is a Bearer header
   * whose token verifies; it then has stored that payload as the user first.
   * Otherwise it responds once with 401: "No token provided" when the header
   * is missing or not a Bearer header, "Invalid token" when verification fails.
   */
  lemma AuthOutcomes(header: Option<string>, verify: Verifier)
    ensures var ev := AuthEvents(header, verify);
      && (CallNext in ev <==> Authenticated(header, verify).Some?)
      && (CallNext in ev ==> ev == [SetUser(Authenticated(header, verify).value), CallNext])
      && (BearerToken(header).None? ==> ev == [Respond(Rejection(401, NoTokenError))])
      && (BearerToken(header).Some? && Authenticated(header, verify).None? ==>
            ev == [Respond(Rejection(401, InvalidTokenError))])
  {
  }

  /** The token handed to the verifier is the header without its first seven characters. */
  lemma VerifiedTokenIsHeaderSuffix(header: Option<string>, verify: Verifier)
    requires Authenticated(header, verify).Some?
    ensures header.Some? && |header.value| >= 7
    ensures Authenticated(header, verify) == verify(header.value[7..])
  {
  }

  /** `adminMiddleware` calls `next` exactly for an admin user and otherwise answers 403. */
  lemma AdminGate(user: Option<TokenPayload>)
    ensures CallNext in AdminEvents(user) <==> user.Some? && user.value.role == "admin"
    ensures CallNext !in AdminEvents(user) ==> AdminEvents(user) == [Respond(Rejection(403, AdminRequiredError))]
  {
  }

  /**
   * On an admin route the handler runs exactly when the token verifies to a
   * payload whose role is `admin`, and that payload is stored first.
   */
  lemma AdminRouteReachedIff(header: Option<string>, verify: Verifier)
    ensures HandsOn(AdminRouteEvents(header, verify)) <==>
      Authenticated(header, verify).Some? && Authenticated(header, verify).value.role == "admin"
    ensures HandsOn(AdminRouteEvents(header, verify)) ==>
      AdminRouteEvents(header, verify) == [SetUser(Authenticated(header, verify).value), CallNext, CallNext]
  {
  }
}
