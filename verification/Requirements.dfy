/** What each request has to come to, told by its fields, the stored records and the rows alone. Nothing
    is computed from these predicates: they are what the methods and the runs are held against. */
module Requirements {
  import opened Wrappers
  import opened Records
  import opened RedisKeyspace
  import opened IdentityTable
  import opened Registry
  import opened Protocol

  // ---------------------------------------------------------------- answers

  /** What a start request leads to. */
  datatype StartReply = StartRefused | ToProvider(state: nat, nonce: nat, verifier: Id)

  /** What the browser is sent after a callback. */
  datatype Reply = BadRequest | ErrorRedirect | TicketRedirect(ticket: Id) | CodeRedirect(code: Id)

  /** The claims a server-to-server exchange signs. */
  datatype Claims =
    | UserClaims(sub: string, aud: string, purpose: string, authIdentityId: Id, providerEmail: Option<string>, providerEmailVerified: bool)
    | RegistrationClaims(aud: string, purpose: string, provider: string, providerSubject: string,
                         providerEmail: Option<string>, providerEmailVerified: bool, partnerSlug: Option<string>)

  datatype RatePolicy = RatePolicy(scope: string, limit: int, windowSeconds: int)

  datatype Admission = Admitted | TooManyRequests | Unauthorized

  /** A missing field of the body is the empty string, a missing code None. */
  datatype ExchangeBody = ExchangeBody(code: Option<Id>, clientId: string, redirectUri: string)

  datatype ExchangeReply = Limited | BadSignature | BadExchange | Signed(claims: Claims)

  // ---------------------------------------------------------------- words

  /** The client is registered and active, with exactly this redirect target and this purpose. */
  predicate Registered(cs: Clients, q: AuthorizeRequest) {
    && q.clientId in cs && cs[q.clientId].active
    && q.redirectUri in cs[q.clientId].allowedRedirectUris && q.purpose in cs[q.clientId].allowedPurposes
  }

  predicate SlugShaped(s: string) {
    1 <= |s| <= 64 && forall c :: c in s ==> 'a' <= c <= 'z' || '0' <= c <= '9' || c == '-'
  }

  /** The route serves the session: a partner's only one made for that partner. */
  predicate ForRoute(route: Route, s: OAuthSession) {
    route.Google? || s.partnerSlug == Some(route.slug)
  }

  /** The provider and subject an identity is kept under: at Google the verified sub, at a partner the
      sub after the partner's slug and a colon. */
  predicate KnownAs(route: Route, sub: string, provider: string, subject: string) {
    match route
    case Google => provider == "google" && subject == sub
    case Enterprise(slug) => provider == "oidc" && subject == slug + ":" + sub
  }

  /** Row `id` is the identity the provider vouched for. */
  predicate IsRowOf(rows: Table, id: Id, v: Visit) {
    id in rows && KnownAs(v.route, v.who.sub, rows[id].provider, rows[id].subject)
  }

  /** Only these keys differ. */
  ghost predicate SameExcept(db: Keyspace, db': Keyspace, keys: set<Key>) {
    forall k {:trigger k in db'} {:trigger db'[k]} :: k !in keys ==> (k in db' <==> k in db) && (k in db ==> db'[k] == db[k])
  }

  function SessionIn(db: Keyspace, sid: Id, now: int): Option<OAuthSession> {
    if Live(db, SessionKey(sid), now) && db[SessionKey(sid)].value.SessionValue? then Some(db[SessionKey(sid)].value.session) else None
  }

  // ---------------------------------------------------------------- GET /authorize

  /** A link's ticket is unexpired, in whole seconds, and its nonce is free. */
  predicate TicketUsable(q: AuthorizeRequest, db: Keyspace, now: int) {
    q.ticket.Some? && now / 1000 < q.ticket.value.exp && !Live(db, LinkNonceKey(q.ticket.value.nonce), now)
  }

  /** A session exactly for a registered request with a state, a well-formed partner and, to link, a
      usable ticket; it holds the request, lives ten minutes, and a link's ticket is claimed until it
      expires. A refusal leaves no trace. */
  ghost predicate AuthorizeComesTo(cs: Clients, q: AuthorizeRequest, sessionId: Id, state: nat, nonce: nat, now: int,
                                   db: Keyspace, sid: Option<Id>, db': Keyspace) {
    if Registered(cs, q) && q.clientState != "" && (q.partnerSlug.Some? ==> SlugShaped(q.partnerSlug.value))
       && (q.purpose == "link" ==> TicketUsable(q, db, now))
    then
      var user := if q.purpose == "link" && q.ticket.value.kisUserId != "" then Some(q.ticket.value.kisUserId) else None;
      var session := OAuthSession(q.clientId, q.redirectUri, q.purpose, state, nonce, q.clientState, None, user, q.partnerSlug);
      var claimed := if q.purpose == "link"
                     then db[LinkNonceKey(q.ticket.value.nonce) := Entry(Claimed, Some(now + (q.ticket.value.exp - now / 1000) * 1000))]
                     else db;
      sid == Some(sessionId) && db' == claimed[SessionKey(sessionId) := Entry(SessionValue(session), Some(now + 600_000))]
    else
      sid == None && db' == db
  }

  // ---------------------------------------------------------------- start

  /** The provider is asked with the session's state and nonce and the new verifier, which the session
      then holds, for as long as it had left to half a second or, with less than that left, ten minutes.
      A partner that does not resolve costs the session. */
  ghost predicate StartComesTo(route: Route, sid: Id, resolved: bool, verifier: Id, now: int,
                               db: Keyspace, reply: StartReply, db': Keyspace) {
    var found := SessionIn(db, sid, now);
    if found.None? || !ForRoute(route, found.value) then reply == StartRefused && db' == db
    else if route.Enterprise? && !resolved then reply == StartRefused && db' == db - {SessionKey(sid)}
    else
      && reply == ToProvider(found.value.state, found.value.nonce, verifier)
      && SessionKey(sid) in db' && db'[SessionKey(sid)].value == SessionValue(found.value.(codeVerifier := Some(verifier)))
      && SameExcept(db, db', {SessionKey(sid)})
      && (var was, left := db[SessionKey(sid)].expiresAt, db'[SessionKey(sid)].expiresAt;
          left.Some? && if was.Some? && was.value - now >= 500 then was.value - 500 <= left.value <= was.value + 500
                        else left.value == now + 600_000)
  }

  // ---------------------------------------------------------------- callback

  /** A code for this row and user is stored and sent, and its challenge is used, unless the
      configuration allows no attempt; the session is gone; nothing else in Redis has changed. */
  ghost predicate CodeComesTo(cfg: Config, v: Visit, purpose: string, user: string, id: Id, challenge: Id, code: Id, now: int,
                              db: Keyspace, reply: Reply, db': Keyspace) {
    && SessionKey(v.sid) !in db' && SameExcept(db, db', {SessionKey(v.sid), ChallengeKey(challenge), CodeKey(code)})
    && (if cfg.challengeMaxAttempts >= 1 && user != "" then
          && reply == CodeRedirect(code) && CodeKey(code) in db' && ChallengeKey(challenge) in db'
          && db'[CodeKey(code)] == Entry(CodeValue(AuthorizationCodePayload(purpose, v.session.clientId, user, id, v.session.redirectUri)),
                                         Some(now + cfg.authCodeTtlSeconds * 1000))
          && db'[ChallengeKey(challenge)]
             == Entry(ChallengeValue(ChallengeRecord(purpose, v.session.clientId, Some(user), Some(id), 0, cfg.challengeMaxAttempts, true)),
                      Some(now + cfg.challengeTtlSeconds * 1000))
        else
          && reply == BadRequest && SameExcept(db, db', {SessionKey(v.sid), ChallengeKey(challenge)}))
  }

  /** The challenge checks before a code is issued. */
  predicate MayConfirm(c: ChallengeRecord) {
    && !c.used && c.kisUserId.Some? && c.kisUserId.value != "" && c.authIdentityId.Some? && c.attemptCount < c.maxAttempts
  }

  /** The confirm checks and the code: a live challenge that passes is marked used, if its rounded
      seconds are not zero, and its code is stored and sent. */
  ghost predicate ConfirmComesTo(cfg: Config, challenge: Id, redirectUri: string, code: Id, now: int,
                                 db: Keyspace, reply: Reply, db': Keyspace) {
    var k := ChallengeKey(challenge);
    if !Live(db, k, now) || !db[k].value.ChallengeValue? || !MayConfirm(db[k].value.challenge) then reply == BadRequest && db' == db
    else
      var c := db[k].value.challenge;
      var ttl := TtlReply(db, k, now);
      var used := if ttl > 0 then db[k := Entry(ChallengeValue(c.(used := true)), Some(now + ttl * 1000))] else db;
      && reply == CodeRedirect(code)
      && db' == used[CodeKey(code) := Entry(
                       CodeValue(AuthorizationCodePayload(c.purpose, c.clientId, c.kisUserId.value, c.authIdentityId.value, redirectUri)),
                       Some(now + cfg.authCodeTtlSeconds * 1000))]
  }

  /** Some row has the identity's key or the user, and none has both. */
  ghost predicate LinkIsTaken(rows: Table, v: Visit, user: string) {
    && (exists i :: i in rows && (IsRowOf(rows, i, v) || rows[i].user == user))
    && !(exists i :: i in rows && IsRowOf(rows, i, v) && rows[i].user == user)
  }

  /** Row `id` is the verified identity with its e-mail columns, of this user; every other row is as it
      was, and so is the status of this one if it was there. */
  ghost predicate LinksRow(rows: Table, rows': Table, id: Id, v: Visit, user: string) {
    && IsRowOf(rows', id, v) && rows'[id].user == user
    && rows'[id].email == v.who.email && rows'[id].emailVerified == v.who.emailVerified
    && rows'[id].status == (if id in rows then rows[id].status else Active)
    && (id in rows ==> IsRowOf(rows, id, v) && rows[id].user == user)
    && (forall i {:trigger rows'[i]} {:trigger i in rows'} :: i in rows' && i != id ==> i in rows && rows'[i] == rows[i])
    && (forall i {:trigger i in rows} :: i in rows ==> i in rows')
  }

  ghost predicate LinkComesTo(cfg: Config, v: Visit, challenge: Id, code: Id, now: int, db: Keyspace, rows: Table,
                              reply: Reply, db': Keyspace, rows': Table) {
    if v.session.linkKisUserId.None? then
      reply == BadRequest && db' == db - {SessionKey(v.sid)} && rows' == rows
    else if LinkIsTaken(rows, v, v.session.linkKisUserId.value) then
      reply == ErrorRedirect && db' == db - {SessionKey(v.sid)} && rows' == rows
    else
      exists id :: LinksRow(rows, rows', id, v, v.session.linkKisUserId.value)
                   && CodeComesTo(cfg, v, "link", v.session.linkKisUserId.value, id, challenge, code, now, db, reply, db')
  }

  /** A ticket for the verified identity, or an error if it has a row already. */
  ghost predicate RegistrationComesTo(cfg: Config, v: Visit, known: bool, code: Id, now: int, db: Keyspace, reply: Reply, db': Keyspace) {
    if known then reply == ErrorRedirect && db' == db - {SessionKey(v.sid)}
    else
      && reply == TicketRedirect(code) && SessionKey(v.sid) !in db' && SameExcept(db, db', {SessionKey(v.sid), TicketKey(code)})
      && TicketKey(code) in db' && db'[TicketKey(code)].expiresAt == Some(now + cfg.authCodeTtlSeconds * 1000)
      && db'[TicketKey(code)].value.TicketValue?
      && (var t := db'[TicketKey(code)].value.ticket;
          && KnownAs(v.route, v.who.sub, t.provider, t.providerSubject)
          && t.providerEmail == v.who.email && t.providerEmailVerified == v.who.emailVerified
          && t.clientId == v.session.clientId && t.redirectUri == v.session.redirectUri
          && (match v.route
              case Google => t.purpose == "registration" && t.partnerSlug == None
              case Enterprise(slug) => t.purpose == "enterprise_sso_registration" && t.partnerSlug == Some(slug)))
  }

  /** A code for the user of the identity's row, or an error if it has none. */
  ghost predicate ReturnComesTo(cfg: Config, v: Visit, found: Option<Id>, user: string, challenge: Id, code: Id, now: int,
                                db: Keyspace, reply: Reply, db': Keyspace) {
    match found
    case None => reply == ErrorRedirect && db' == db - {SessionKey(v.sid)}
    case Some(id) => CodeComesTo(cfg, v, v.session.purpose, user, id, challenge, code, now, db, reply, db')
  }

  /** From the provider's answer on. */
  ghost predicate IdentifiedComesTo(cfg: Config, v: Visit, verified: bool, challenge: Id, code: Id, now: int, db: Keyspace, rows: Table,
                                    reply: Reply, db': Keyspace, rows': Table) {
    if !verified || v.who.sub == "" || v.session.codeVerifier.None? then
      reply == ErrorRedirect && db' == db - {SessionKey(v.sid)} && rows' == rows
    else if v.session.purpose == "link" then
      LinkComesTo(cfg, v, challenge, code, now, db, rows, reply, db', rows')
    else if v.session.purpose == "registration" then
      rows' == rows && RegistrationComesTo(cfg, v, exists i :: IsRowOf(rows, i, v), code, now, db, reply, db')
    else
      && rows' == rows
      && (if exists i :: IsRowOf(rows, i, v)
          then exists i :: IsRowOf(rows, i, v) && ReturnComesTo(cfg, v, Some(i), rows[i].user, challenge, code, now, db, reply, db')
          else ReturnComesTo(cfg, v, None, "", challenge, code, now, db, reply, db'))
  }

  /** A whole callback. A request that fits no session changes nothing; one that does costs it. */
  ghost predicate CallbackComesTo(cfg: Config, route: Route, sid: Id, cb: CallbackRequest, resolved: bool, verified: bool, who: Verified,
                                  challenge: Id, code: Id, now: int, db: Keyspace, rows: Table,
                                  reply: Reply, db': Keyspace, rows': Table) {
    var found := SessionIn(db, sid, now);
    if found.None? || !ForRoute(route, found.value) || cb.state != Some(found.value.state)
       || (!cb.hasError && (!cb.hasCode || found.value.codeVerifier.None?))
    then reply == BadRequest && db' == db && rows' == rows
    else if cb.hasError then reply == ErrorRedirect && db' == db - {SessionKey(sid)} && rows' == rows
    else if route.Enterprise? && !resolved then reply == BadRequest && db' == db - {SessionKey(sid)} && rows' == rows
    else IdentifiedComesTo(cfg, Visit(route, sid, found.value, who), verified, challenge, code, now, db, rows, reply, db', rows')
  }

  // ---------------------------------------------------------------- exchanges

  /** A live code goes to whoever presents it; its claims only to its own client and redirect target,
      while the identity is there, active and its user's. */
  ghost predicate RedeemComesTo(code: Id, clientId: string, redirectUri: string, now: int, db: Keyspace, rows: Table,
                                claims: Option<Claims>, db': Keyspace) {
    if !Live(db, CodeKey(code), now) || !db[CodeKey(code)].value.CodeValue? then claims == None && db' == db
    else
      var p := db[CodeKey(code)].value.code;
      && db' == db - {CodeKey(code)}
      && (if p.clientId == clientId && p.redirectUri == redirectUri && p.authIdentityId in rows
             && rows[p.authIdentityId].status == Active && rows[p.authIdentityId].user == p.kisUserId
          then claims == Some(UserClaims(p.kisUserId, p.clientId, p.purpose, p.authIdentityId,
                                         rows[p.authIdentityId].email, rows[p.authIdentityId].emailVerified))
          else claims == None)
  }

  ghost predicate RegistrationRedeemComesTo(ticket: Id, clientId: string, redirectUri: string, now: int, db: Keyspace,
                                            claims: Option<Claims>, db': Keyspace) {
    if !Live(db, TicketKey(ticket), now) || !db[TicketKey(ticket)].value.TicketValue? then claims == None && db' == db
    else
      var p := db[TicketKey(ticket)].value.ticket;
      && db' == db - {TicketKey(ticket)}
      && (if p.clientId == clientId && p.redirectUri == redirectUri
          then claims == Some(RegistrationClaims(p.clientId, p.purpose, p.provider, p.providerSubject,
                                                 p.providerEmail, p.providerEmailVerified, p.partnerSlug))
          else claims == None)
  }

  predicate CountsOne(db: Keyspace, db': Keyspace, policy: RatePolicy, who: string, now: int) {
    CountsUp(db, db', RateKey(policy.scope, who), policy.windowSeconds, now)
  }

  /** Admitted are exactly the calls within the limit of their address and, if they name one, of their
      client, with an accepted signature. A call counts against its address, and against its client if
      it names one and its address is within the limit. */
  ghost predicate AdmitComesTo(perIp: RatePolicy, perClient: RatePolicy, ip: string, clientId: string, accepted: bool, now: int,
                               db: Keyspace, a: Admission, db': Keyspace) {
    var ipKey, clientKey := RateKey(perIp.scope, ip), RateKey(perClient.scope, clientId);
    var ipPasses := CounterAt(db, ipKey, now) + 1 <= perIp.limit;
    var clientPasses := clientId == "" || CounterAt(db, clientKey, now) + 1 <= perClient.limit;
    && (a.Admitted? <==> ipPasses && clientPasses && accepted)
    && (a.Unauthorized? <==> ipPasses && clientPasses && !accepted)
    && CountsOne(db, db', perIp, ip, now)
    && (if clientId != "" && ipPasses then CountsOne(db, db', perClient, clientId, now) && SameExcept(db, db', {ipKey, clientKey})
        else SameExcept(db, db', {ipKey}))
  }

  /** After the guards: an admitted call with every field redeems, and nothing else touches the code. */
  ghost predicate ExchangeComesTo(a: Admission, body: ExchangeBody, now: int, db: Keyspace, rows: Table, reply: ExchangeReply, db': Keyspace) {
    match a
    case TooManyRequests => reply == Limited && db' == db
    case Unauthorized => reply == BadSignature && db' == db
    case Admitted =>
      if body.code.None? || body.clientId == "" || body.redirectUri == "" then reply == BadExchange && db' == db
      else exists claims :: RedeemComesTo(body.code.value, body.clientId, body.redirectUri, now, db, rows, claims, db')
                            && reply == if claims.Some? then Signed(claims.value) else BadExchange
  }

  ghost predicate RegistrationExchangeComesTo(a: Admission, body: ExchangeBody, now: int, db: Keyspace, reply: ExchangeReply, db': Keyspace) {
    match a
    case TooManyRequests => reply == Limited && db' == db
    case Unauthorized => reply == BadSignature && db' == db
    case Admitted =>
      if body.code.None? || body.clientId == "" || body.redirectUri == "" then reply == BadExchange && db' == db
      else exists claims :: RegistrationRedeemComesTo(body.code.value, body.clientId, body.redirectUri, now, db, claims, db')
                            && reply == if claims.Some? then Signed(claims.value) else BadExchange
  }
}
