/** The controllers as methods: the browser's three routes, for Google and for an enterprise partner,
    and the server-to-server endpoints. Like the services, each is proved to end where its handler
    ends in module Protocol when it runs alone. */
module Controllers {
  import opened Wrappers
  import opened Records
  import opened RedisKeyspace
  import opened IdentityTable
  import opened Registry
  import opened TenantKey
  import opened Protocol
  import opened ServiceSteps
  import opened Requirements
  import opened Services
  import opened RateLimiting
  import InternalSigning

  // ---------------------------------------------------------------- the browser's routes

  /** `OAuthController` and `OidcEnterpriseController`: `route` says which. Requests are past their
      rate limit. */
  class OAuthController {
    const b: Backend
    const outcome: OAuthOutcomeService

    constructor (b: Backend, outcome: OAuthOutcomeService)
      requires outcome.b == b
      ensures this.b == b && this.outcome == outcome
    {
      this.b, this.outcome := b, outcome;
    }

    /** The session id for the cookie, or None for a refusal. */
    method Authorize(ghost hid: Id, q: AuthorizeRequest, sessionId: Id, state: nat, nonce: nat, ghost r: Randoms) returns (sid: Option<Id>)
      requires b.Valid() && b.At(hid, AuthorizeLookup(q)) && r.session == sessionId && r.state == state && r.nonce == nonce
      modifies b`w, b.redis`db
      ensures b.Valid() && b.At(hid, Finished) && Reaches(b.cfg, old(b.w), hid, r, b.w)
      ensures AuthorizeComesTo(b.clients, q, sessionId, state, nonce, b.redis.now, old(b.redis.db), sid, b.redis.db)
    {
      hide Reaches, Backend.Valid, Backend.At, Registered, SlugShaped, Live, Moved;
      ghost var w0 := b.w;
      var ok := b.CheckRequest(hid, q, r);
      if !ok {
        return None;
      }
      var linkKisUserId: Option<string> := None;
      if q.purpose == "link" {
        ghost var w1 := b.w;
        ok := b.ClaimTicket(hid, q, q.ticket.value, b.redis.now / 1000, r);
        ReachesOn(b.cfg, w0, hid, r, w1, b.w);
        if !ok {
          return None;
        }
        linkKisUserId := NonEmpty(q.ticket.value.kisUserId);
      }
      ghost var w2 := b.w;
      b.CreateSession(hid, q, linkKisUserId, sessionId, state, nonce, r);
      ReachesOn(b.cfg, w0, hid, r, w2, b.w);
      sid := Some(sessionId);
    }

    /** A start goes to the provider exactly when its session is there, is for this partner, and the
        partner's configuration resolves. */
    method Start(ghost hid: Id, route: Route, sid: Id, resolved: bool, verifier: Id, ghost r: Randoms) returns (reply: StartReply)
      requires b.Valid() && b.At(hid, StartGet(route, sid)) && r.verifier == verifier && r.resolved == resolved
      modifies b`w, b.redis
      ensures b.Valid() && b.At(hid, Finished) && Reaches(b.cfg, old(b.w), hid, r, b.w)
      ensures StartComesTo(route, sid, resolved, verifier, old(b.redis.now), old(b.redis.db), reply, b.redis.db)
    {
      hide Reaches, Backend.Valid, Backend.At, Becomes, SessionIn, ForRoute, StartComesTo, Del, TtlReply;
      ghost var w0, db0 := b.w, b.redis.db;
      var found := b.ReadForStart(hid, route, sid, verifier, r);
      if found.None? {
        StartRefuses(route, sid, resolved, verifier, b.redis.now, db0);
        return StartRefused;
      }
      var session := found.value;
      if route.Enterprise? {
        ghost var w1 := b.w;
        b.ResolveForStart(hid, sid, session, resolved, verifier, r);
        ReachesOn(b.cfg, w0, hid, r, w1, b.w);
        if !resolved {
          ghost var w2 := b.w;
          CloseEffect(b, hid, r, sid, false);
          b.DeleteSession(hid, sid, r, Finished, []);
          ReachesOn(b.cfg, w0, hid, r, w2, b.w);
          StartFails(route, sid, verifier, b.redis.now, db0);
          return StartRefused;
        }
      }
      ghost var w3 := b.w;
      b.UpdateSession(hid, sid, session.(codeVerifier := Some(verifier)), r);
      ReachesOn(b.cfg, w0, hid, r, w3, b.w);
      reply := ToProvider(session.state, session.nonce, verifier);
      StartGoesOn(route, sid, resolved, verifier, b.redis.now, db0, b.redis.db);
    }

    /** A callback, from the cookie to the redirect. */
    method Callback(ghost hid: Id, route: Route, sid: Id, cb: CallbackRequest, resolved: bool, verified: bool, who: Verified,
                    uuid: Id, challenge: Id, code: Id, ghost r: Randoms)
      returns (reply: Reply)
      requires b.Valid() && outcome.b == b && b.At(hid, CallbackGet(route, sid, cb)) && uuid !in b.identities.rows
      requires r.resolved == resolved && r.verified == verified && r.who == who
      requires r.uuid == uuid && r.challenge == challenge && r.code == code
      modifies b`w, b.redis, b.identities
      ensures b.Valid() && b.At(hid, Finished) && Reaches(b.cfg, old(b.w), hid, r, b.w)
      ensures b.w.hist.outputs == old(b.w.hist.outputs) + OutputOf(sid, reply)
      ensures CallbackComesTo(b.cfg, route, sid, cb, resolved, verified, who, challenge, code, old(b.redis.now),
                              old(b.redis.db), old(b.identities.rows), reply, b.redis.db, b.identities.rows)
    {
      hide Reaches, Backend.Valid, Backend.At, Becomes, SessionIn, ForRoute, IdentifiedComesTo, Del;
      ghost var w0, db0 := b.w, b.redis.db;
      var found := b.ReadForCallback(hid, route, sid, cb, r);
      if found.None? {
        return BadRequest;
      }
      var session := found.value;
      ghost var w1 := b.w;
      if cb.hasError {
        CloseEffect(b, hid, r, sid, true);
        b.DeleteSession(hid, sid, r, Finished, [(sid, ErrorOutput)]);
        ReachesOn(b.cfg, w0, hid, r, w1, b.w);
        Deleted(db0, SessionKey(sid));
        return ErrorRedirect;
      }
      if route.Enterprise? {
        b.ResolveForCallback(hid, route, sid, session, resolved, r);
        ReachesOn(b.cfg, w0, hid, r, w1, b.w);
        if !resolved {
          ghost var w2 := b.w;
          CloseEffect(b, hid, r, sid, false);
          b.DeleteSession(hid, sid, r, Finished, []);
          ReachesOn(b.cfg, w0, hid, r, w2, b.w);
          Deleted(db0, SessionKey(sid));
          return BadRequest;
        }
      }
      ghost var w3 := b.w;
      reply := Identified(hid, route, sid, session, verified, who, uuid, challenge, code, r);
      ReachesOn(b.cfg, w0, hid, r, w3, b.w);
    }

    /** From the provider's answer on: the shared outcome for the session's purpose. */
    method Identified(ghost hid: Id, route: Route, sid: Id, session: OAuthSession, verified: bool, who: Verified,
                      uuid: Id, challenge: Id, code: Id, ghost r: Randoms)
      returns (reply: Reply)
      requires b.Valid() && outcome.b == b && b.At(hid, CallbackVerify(route, sid, session)) && uuid !in b.identities.rows
      requires r.verified == verified && r.who == who && r.uuid == uuid && r.challenge == challenge && r.code == code
      modifies b`w, b.redis, b.identities
      ensures b.Valid() && b.At(hid, Finished) && Reaches(b.cfg, old(b.w), hid, r, b.w)
      ensures b.w.hist.outputs == old(b.w.hist.outputs) + OutputOf(sid, reply)
      ensures IdentifiedComesTo(b.cfg, Visit(route, sid, session, who), verified, challenge, code, old(b.redis.now),
                                old(b.redis.db), old(b.identities.rows), reply, b.redis.db, b.identities.rows)
    {
      hide Reaches, Backend.Valid, Backend.At, Becomes, ArgsOf, Del, LinkComesTo, RegistrationComesTo, ReturnComesTo, KnownAs, IsRowOf,
           IdentifiedComesTo;
      ghost var w0, db0, rows0 := b.w, b.redis.db, b.identities.rows;
      var ok := b.VerifyIdentity(hid, route, sid, session, verified, who, r);
      ghost var w1 := b.w;
      if !ok {
        CloseEffect(b, hid, r, sid, true);
        b.DeleteSession(hid, sid, r, Finished, [(sid, ErrorOutput)]);
        ReachesOn(b.cfg, w0, hid, r, w1, b.w);
        Unverified(b.cfg, Visit(route, sid, session, who), verified, challenge, code, b.redis.now, db0, rows0);
        return ErrorRedirect;
      }
      var v := Visit(route, sid, session, who);
      if session.purpose == "link" {
        reply := outcome.FinalizeLink(hid, v, uuid, challenge, code, r);
        ReachesOn(b.cfg, w0, hid, r, w1, b.w);
        VerifiedLink(b.cfg, v, challenge, code, b.redis.now, db0, rows0, reply, b.redis.db, b.identities.rows);
        return;
      }
      var provider := if route.Google? then "google" else "oidc";
      var subject := if route.Google? then who.sub else route.slug + ":" + who.sub;
      NamesAre(v, provider, subject);
      NamesOf(v, provider, subject);
      var identity, user := b.FindIdentityOf(hid, v, provider, subject, r);
      FoundIs(v, provider, subject, rows0, identity);
      ReachesOn(b.cfg, w0, hid, r, w1, b.w);
      ghost var w2 := b.w;
      if session.purpose == "registration" {
        reply := outcome.FinalizeRegistration(hid, v, identity.Some?, code, r);
      } else {
        reply := outcome.FinalizeReturningUser(hid, v, identity, user, challenge, code, r);
      }
      ReachesOn(b.cfg, w0, hid, r, w2, b.w);
      VerifiedVisit(b.cfg, v, identity, user, challenge, code, b.redis.now, db0, rows0, reply, b.redis.db);
    }
  }

  // ---------------------------------------------------------------- what these requests come to

  lemma StartRefuses(route: Route, sid: Id, resolved: bool, verifier: Id, now: int, db: Keyspace)
    requires SessionIn(db, sid, now).None? || !ForRoute(route, SessionIn(db, sid, now).value)
    ensures StartComesTo(route, sid, resolved, verifier, now, db, StartRefused, db)
  {
    hide SessionIn, ForRoute;
  }

  lemma StartFails(route: Route, sid: Id, verifier: Id, now: int, db: Keyspace)
    requires SessionIn(db, sid, now).Some? && ForRoute(route, SessionIn(db, sid, now).value) && route.Enterprise?
    ensures StartComesTo(route, sid, false, verifier, now, db, StartRefused, Del(db, SessionKey(sid)))
  {
    hide SessionIn, ForRoute;
  }

  lemma StartGoesOn(route: Route, sid: Id, resolved: bool, verifier: Id, now: int, db: Keyspace, db': Keyspace)
    requires SessionIn(db, sid, now).Some? && ForRoute(route, SessionIn(db, sid, now).value) && (route.Enterprise? ==> resolved)
    requires var s := SessionIn(db, sid, now).value;
             var ttl := TtlReply(db, SessionKey(sid), now);
             db' == db[SessionKey(sid) := Entry(SessionValue(s.(codeVerifier := Some(verifier))), Some(now + (if ttl > 0 then ttl else 600) * 1000))]
    ensures var s := SessionIn(db, sid, now).value;
            StartComesTo(route, sid, resolved, verifier, now, db, ToProvider(s.state, s.nonce, verifier), db')
  {
    hide ForRoute;
    RewriteDrifts(db, SessionKey(sid), now);
  }

  /** A rewrite at once keeps the expiry to half a second, or starts ten minutes anew. */
  lemma RewriteDrifts(db: Keyspace, k: Key, now: int)
    requires Live(db, k, now)
    ensures var ttl := TtlReply(db, k, now);
            var left := now + (if ttl > 0 then ttl else 600) * 1000;
            if db[k].expiresAt.Some? && db[k].expiresAt.value - now >= 500
            then db[k].expiresAt.value - 500 <= left <= db[k].expiresAt.value + 500
            else left == now + 600_000
  {
  }

  lemma Unverified(cfg: Config, v: Visit, verified: bool, challenge: Id, code: Id, now: int, db: Keyspace, rows: Table)
    requires !verified || v.who.sub == "" || v.session.codeVerifier.None?
    ensures IdentifiedComesTo(cfg, v, verified, challenge, code, now, db, rows, ErrorRedirect, Del(db, SessionKey(v.sid)), rows)
  {
  }

  lemma VerifiedLink(cfg: Config, v: Visit, challenge: Id, code: Id, now: int, db: Keyspace, rows: Table,
                     reply: Reply, db': Keyspace, rows': Table)
    requires v.who.sub != "" && v.session.codeVerifier.Some? && v.session.purpose == "link"
    requires LinkComesTo(cfg, v, challenge, code, now, db, rows, reply, db', rows')
    ensures IdentifiedComesTo(cfg, v, true, challenge, code, now, db, rows, reply, db', rows')
  {
    hide LinkComesTo;
  }

  /** A visit goes by one provider and subject. */
  lemma NamesOf(v: Visit, provider: string, subject: string)
    requires KnownAs(v.route, v.who.sub, provider, subject)
    ensures provider == ProviderOf(v.route) && subject == SubjectOf(v.route, v.who.sub)
  {
  }

  lemma FoundIs(v: Visit, provider: string, subject: string, rows: Table, found: Option<Id>)
    requires KnownAs(v.route, v.who.sub, provider, subject)
    requires found.None? ==> forall i :: i in rows ==> rows[i].provider != provider || rows[i].subject != subject
    requires found.Some? ==> found.value in rows && rows[found.value].provider == provider && rows[found.value].subject == subject
    ensures if found.Some? then IsRowOf(rows, found.value, v) else !exists i :: IsRowOf(rows, i, v)
  {
  }

  lemma VerifiedVisit(cfg: Config, v: Visit, found: Option<Id>, user: string, challenge: Id, code: Id, now: int,
                      db: Keyspace, rows: Table, reply: Reply, db': Keyspace)
    requires v.who.sub != "" && v.session.codeVerifier.Some? && v.session.purpose != "link"
    requires if found.Some? then IsRowOf(rows, found.value, v) && rows[found.value].user == user else !exists i :: IsRowOf(rows, i, v)
    requires if v.session.purpose == "registration" then RegistrationComesTo(cfg, v, found.Some?, code, now, db, reply, db')
             else ReturnComesTo(cfg, v, found, user, challenge, code, now, db, reply, db')
    ensures IdentifiedComesTo(cfg, v, true, challenge, code, now, db, rows, reply, db', rows)
  {
    hide RegistrationComesTo, CodeComesTo, KnownAs;
    if found.Some? {
      assert exists i :: IsRowOf(rows, i, v);
    }
  }

  // ---------------------------------------------------------------- the guards of the internal endpoints

  const EXCHANGE_PER_IP := RatePolicy("exchange_ip", 60, 60)
  const EXCHANGE_PER_CLIENT := RatePolicy("exchange_client", 120, 60)
  const REGISTRATION_EXCHANGE_PER_IP := RatePolicy("registration_exchange_ip", 30, 60)
  const REGISTRATION_EXCHANGE_PER_CLIENT := RatePolicy("registration_exchange_client", 60, 60)

  function KeyOf(policy: RatePolicy, who: string): Key {
    RateKey(policy.scope, who)
  }

  function Counted(db: Keyspace, now: int, policy: RatePolicy, who: string): Keyspace {
    Incremented(db, KeyOf(policy, who), policy.windowSeconds, now)
  }

  predicate Within(db: Keyspace, now: int, policy: RatePolicy, who: string) {
    CounterAt(db, KeyOf(policy, who), now) + 1 <= policy.limit
  }

  /** What the guards answer: both rate limits first, then the signature. */
  function AdmissionOf(db: Keyspace, now: int, perIp: RatePolicy, perClient: RatePolicy, ip: string, clientId: string,
                       signature: InternalSigning.VerifyResult): Admission {
    if !Within(db, now, perIp, ip) then TooManyRequests
    else if clientId != "" && !Within(Counted(db, now, perIp, ip), now, perClient, clientId) then TooManyRequests
    else if !signature.Accepted? then Unauthorized
    else Admitted
  }

  /** Every request counts against its address; only one within that limit, against its client. */
  function CountedBy(db: Keyspace, now: int, perIp: RatePolicy, perClient: RatePolicy, ip: string, clientId: string): Keyspace {
    var once := Counted(db, now, perIp, ip);
    if clientId != "" && Within(db, now, perIp, ip) then Counted(once, now, perClient, clientId) else once
  }

  lemma Counts(db: Keyspace, now: int, policy: RatePolicy, who: string)
    requires policy.windowSeconds >= 1
    ensures var db' := Counted(db, now, policy, who);
            CountsOne(db, db', policy, who, now) && SameExcept(db, db', {RateKey(policy.scope, who)})
    ensures Within(db, now, policy, who) <==> CounterAt(db, RateKey(policy.scope, who), now) + 1 <= policy.limit
  {
  }

  lemma CountersApart(db: Keyspace, db': Keyspace, db'': Keyspace, p: RatePolicy, a: string, q: RatePolicy, b: string, now: int)
    requires p.scope != q.scope && CountsOne(db, db', p, a, now) && SameExcept(db, db', {RateKey(p.scope, a)})
    requires CountsOne(db', db'', q, b, now) && SameExcept(db', db'', {RateKey(q.scope, b)})
    ensures CounterAt(db', RateKey(q.scope, b), now) == CounterAt(db, RateKey(q.scope, b), now)
    ensures CountsOne(db, db'', p, a, now) && CountsOne(db, db'', q, b, now)
    ensures SameExcept(db, db'', {RateKey(p.scope, a), RateKey(q.scope, b)})
  {
  }

  /** For two different scopes, what the guards answer and count. */
  lemma AdmissionIs(db: Keyspace, now: int, perIp: RatePolicy, perClient: RatePolicy, ip: string, clientId: string,
                    signature: InternalSigning.VerifyResult)
    requires perIp.scope != perClient.scope && perIp.windowSeconds >= 1 && perClient.windowSeconds >= 1
    ensures AdmitComesTo(perIp, perClient, ip, clientId, signature.Accepted?, now, db,
                         AdmissionOf(db, now, perIp, perClient, ip, clientId, signature), CountedBy(db, now, perIp, perClient, ip, clientId))
  {
    hide Counted, CountsOne, SameExcept, Within, CounterAt;
    var once := Counted(db, now, perIp, ip);
    Counts(db, now, perIp, ip);
    Counts(once, now, perClient, clientId);
    CountersApart(db, once, Counted(once, now, perClient, clientId), perIp, ip, perClient, clientId, now);
  }

  /** Both limits and the signature together: the verifier is asked only within the limits. */
  ghost predicate GuardComesTo(perIp: RatePolicy, perClient: RatePolicy, v: InternalSigning.Verifier, cache: InternalSigning.NonceCache,
                               q: InternalSigning.Request, ip: string, clientId: string, now: int, db: Keyspace,
                               a: Admission, db': Keyspace, cache': InternalSigning.NonceCache) {
    exists verdict, verified ::
      && InternalSigning.VerifyComesTo(v.p, v.secret, v.maxSkewSeconds, cache, q, now, now, verdict, verified)
      && AdmitComesTo(perIp, perClient, ip, clientId, verdict.Accepted?, now, db, a, db')
      && cache' == if a.TooManyRequests? then cache else verified
  }

  class Guard {
    const limiter: RateLimiter
    const verifier: InternalSigning.Verifier

    constructor (limiter: RateLimiter, verifier: InternalSigning.Verifier)
      ensures this.limiter == limiter && this.verifier == verifier
    {
      this.limiter, this.verifier := limiter, verifier;
    }

    /** A refused request has no effect but its counters; a nonce is spent only on admission. */
    method Admit(perIp: RatePolicy, perClient: RatePolicy, ip: string, clientId: string, q: InternalSigning.Request) returns (a: Admission)
      requires perIp.windowSeconds >= 1 && perClient.windowSeconds >= 1
      modifies limiter.redis`db, verifier`nonceCache
      ensures perIp.scope != perClient.scope ==>
                GuardComesTo(perIp, perClient, verifier, old(verifier.nonceCache), q, ip, clientId, limiter.redis.now,
                             old(limiter.redis.db), a, limiter.redis.db, verifier.nonceCache)
      ensures limiter.redis.db == CountedBy(old(limiter.redis.db), limiter.redis.now, perIp, perClient, ip, clientId)
    {
      hide InternalSigning.Answer, InternalSigning.CacheAfter, InternalSigning.Skew, InternalSigning.VerifyComesTo, AdmitComesTo;
      ghost var now, db0, skew := limiter.redis.now, limiter.redis.db, InternalSigning.Skew(verifier.maxSkewSeconds);
      ghost var verdict := InternalSigning.Answer(verifier.p, verifier.secret, skew, verifier.nonceCache, q, now, now);
      InternalSigning.VerifyIs(verifier.p, verifier.secret, verifier.maxSkewSeconds, verifier.nonceCache, q, now, now);
      if perIp.scope != perClient.scope {
        AdmissionIs(db0, now, perIp, perClient, ip, clientId, verdict);
      }
      var ipLimit := limiter.Check(perIp.scope, ip, perIp.limit, perIp.windowSeconds);
      if !ipLimit.allowed {
        return TooManyRequests;
      }
      if clientId != "" {
        var clientLimit := limiter.Check(perClient.scope, clientId, perClient.limit, perClient.windowSeconds);
        if !clientLimit.allowed {
          return TooManyRequests;
        }
      }
      var verification := verifier.Verify(q, limiter.redis.now, limiter.redis.now);
      if !verification.Accepted? {
        return Unauthorized;
      }
      a := Admitted;
    }
  }

  // ---------------------------------------------------------------- the exchanges

  class ExchangeController {
    const b: Backend
    const guard: Guard

    constructor (b: Backend, guard: Guard)
      requires guard.limiter.redis == b.redis
      ensures this.b == b && this.guard == guard
    {
      this.b, this.guard := b, guard;
    }

    /** Past the guards, a code is redeemed as the machine does it, for a handler accepted then. */
    method Redeem(code: Id, clientId: string, redirectUri: string, ghost hid: Id, ghost r: Randoms) returns (claims: Option<Claims>)
      requires b.Valid() && b.At(hid, ExchangeConsume(code, clientId, redirectUri)) && clientId != "" && redirectUri != ""
      requires CodeKey(code) in b.redis.db ==> b.redis.db[CodeKey(code)].value.CodeValue?
      modifies b`w, b.redis`db
      ensures b.Valid() && b.At(hid, Finished) && Reaches(b.cfg, old(b.w), hid, r, b.w)
      ensures RedeemComesTo(code, clientId, redirectUri, b.redis.now, old(b.redis.db), b.identities.rows, claims, b.redis.db)
      ensures if claims.None? then b.w.hist.tokens == old(b.w.hist.tokens)
              else exists t :: b.w.hist.tokens == old(b.w.hist.tokens) + [t] && t.AuthToken? && t.code == code
                               && claims.value == UserClaims(t.subject, t.audience, t.purpose, t.identity, t.email, t.emailVerified)
    {
      hide Reaches, Backend.Valid, Backend.At, Consumed, Index;
      ghost var w0 := b.w;
      ConsumedIs(b.redis.db, CodeKey(code), b.redis.now);
      var payload := b.ConsumeCode(hid, code, clientId, redirectUri, r);
      if payload.None? {
        return None;
      }
      var p := payload.value;
      ghost var w1 := b.w;
      var row := b.FindActive(hid, code, p, r);
      ReachesOn(b.cfg, w0, hid, r, w1, b.w);
      if row.None? {
        return None;
      }
      ghost var w2 := b.w;
      b.SignAuthorization(hid, code, p, row.value.email, row.value.emailVerified, Index(w1), r);
      ReachesOn(b.cfg, w0, hid, r, w2, b.w);
      claims := Some(UserClaims(p.kisUserId, p.clientId, p.purpose, p.authIdentityId, row.value.email, row.value.emailVerified));
    }

    /** The whole endpoint. A code is touched only by an admitted request with every field; such a
        request spends it whatever the rest of its answer is. */
    method Exchange(body: ExchangeBody, q: InternalSigning.Request, ip: string, ghost hid: Id,
                    ghost r: Randoms) returns (reply: ExchangeReply)
      requires b.Valid() && guard.limiter.redis == b.redis && hid !in b.w.handlers
      requires body.code.Some? && CodeKey(body.code.value) in b.redis.db ==> b.redis.db[CodeKey(body.code.value)].value.CodeValue?
      modifies b`w, b.redis`db, guard.verifier`nonceCache
      ensures b.Valid()
      ensures exists a, counted ::
                && GuardComesTo(RatePolicy("exchange_ip", 60, 60), RatePolicy("exchange_client", 120, 60), guard.verifier,
                                old(guard.verifier.nonceCache), q, ip, body.clientId, b.redis.now, old(b.redis.db), a, counted,
                                guard.verifier.nonceCache)
                && ExchangeComesTo(a, body, b.redis.now, counted, b.identities.rows, reply, b.redis.db)
                && (a.Admitted? && body.code.Some? && body.clientId != "" && body.redirectUri != "" ==>
                      && Reaches(b.cfg, Goto(old(b.w).(db := counted), hid, ExchangeConsume(body.code.value, body.clientId, body.redirectUri)),
                                 hid, r, b.w)
                      && b.At(hid, Finished))
    {
      hide Reaches, GuardComesTo, CountedBy, RedeemComesTo, Backend.Valid, Backend.At;
      ScopesDiffer();
      ghost var db0 := b.redis.db;
      ValidIs(b);
      var admission := guard.Admit(EXCHANGE_PER_IP, EXCHANGE_PER_CLIENT, ip, body.clientId, q);
      b.Recount(db0);
      if admission.TooManyRequests? {
        return Limited;
      }
      if admission.Unauthorized? {
        return BadSignature;
      }
      if body.code.None? || body.clientId == "" || body.redirectUri == "" {
        return BadExchange;
      }
      var code := body.code.value;
      CountingKeeps(db0, b.redis.now, EXCHANGE_PER_IP, EXCHANGE_PER_CLIENT, ip, body.clientId, CodeKey(code));
      b.Enter(hid, ExchangeConsume(code, body.clientId, body.redirectUri));
      var claims := Redeem(code, body.clientId, body.redirectUri, hid, r);
      reply := if claims.None? then BadExchange else Signed(claims.value);
    }
  }

  lemma ValidIs(b: Backend)
    requires b.Valid()
    ensures b.ValidBefore(b.redis.db)
  {
  }

  lemma ScopesDiffer()
    ensures EXCHANGE_PER_IP.scope != EXCHANGE_PER_CLIENT.scope
    ensures REGISTRATION_EXCHANGE_PER_IP.scope != REGISTRATION_EXCHANGE_PER_CLIENT.scope
  {
    assert EXCHANGE_PER_IP.scope[9] != EXCHANGE_PER_CLIENT.scope[9];
    assert REGISTRATION_EXCHANGE_PER_IP.scope[22] != REGISTRATION_EXCHANGE_PER_CLIENT.scope[22];
  }

  /** Counting requests touches rate counters only. */
  lemma CountingKeeps(db: Keyspace, now: int, perIp: RatePolicy, perClient: RatePolicy, ip: string, clientId: string, k: Key)
    requires !k.RateKey?
    ensures var db' := CountedBy(db, now, perIp, perClient, ip, clientId);
            (k in db' <==> k in db) && (k in db ==> db'[k] == db[k])
  {
  }

  // ---------------------------------------------------------------- registration exchange and identity link

  class RegistrationExchangeController {
    const b: Backend
    const guard: Guard

    constructor (b: Backend, guard: Guard)
      requires guard.limiter.redis == b.redis
      ensures this.b == b && this.guard == guard
    {
      this.b, this.guard := b, guard;
    }

    method Redeem(ticket: Id, clientId: string, redirectUri: string, ghost hid: Id, ghost r: Randoms) returns (claims: Option<Claims>)
      requires b.Valid() && b.At(hid, TicketConsume(ticket, clientId, redirectUri)) && clientId != "" && redirectUri != ""
      requires TicketKey(ticket) in b.redis.db ==> b.redis.db[TicketKey(ticket)].value.TicketValue?
      modifies b`w, b.redis`db
      ensures b.Valid() && b.At(hid, Finished) && Reaches(b.cfg, old(b.w), hid, r, b.w)
      ensures RegistrationRedeemComesTo(ticket, clientId, redirectUri, b.redis.now, old(b.redis.db), claims, b.redis.db)
      ensures if claims.None? then b.w.hist.tokens == old(b.w.hist.tokens)
              else exists t :: b.w.hist.tokens == old(b.w.hist.tokens) + [t] && t.RegistrationToken? && t.code == ticket
                               && claims.value == RegistrationClaims(t.audience, t.purpose, t.provider, t.providerSubject, t.email, t.emailVerified,
                                                                     t.partnerSlug)
    {
      hide Reaches, Backend.Valid, Backend.At, Consumed, Index;
      ghost var w0 := b.w;
      ConsumedIs(b.redis.db, TicketKey(ticket), b.redis.now);
      var payload := b.ConsumeTicket(hid, ticket, clientId, redirectUri, r);
      if payload.None? {
        return None;
      }
      var p := payload.value;
      ghost var w1 := b.w;
      b.SignRegistration(hid, ticket, p, r);
      ReachesOn(b.cfg, w0, hid, r, w1, b.w);
      claims := Some(RegistrationClaims(p.clientId, p.purpose, p.provider, p.providerSubject, p.providerEmail, p.providerEmailVerified,
                                        p.partnerSlug));
    }

    method Exchange(body: ExchangeBody, q: InternalSigning.Request, ip: string, ghost hid: Id,
                    ghost r: Randoms) returns (reply: ExchangeReply)
      requires b.Valid() && guard.limiter.redis == b.redis && hid !in b.w.handlers
      requires body.code.Some? && TicketKey(body.code.value) in b.redis.db ==> b.redis.db[TicketKey(body.code.value)].value.TicketValue?
      modifies b`w, b.redis`db, guard.verifier`nonceCache
      ensures b.Valid()
      ensures exists a, counted ::
                && GuardComesTo(RatePolicy("registration_exchange_ip", 30, 60), RatePolicy("registration_exchange_client", 60, 60), guard.verifier,
                                old(guard.verifier.nonceCache), q, ip, body.clientId, b.redis.now, old(b.redis.db), a, counted,
                                guard.verifier.nonceCache)
                && RegistrationExchangeComesTo(a, body, b.redis.now, counted, reply, b.redis.db)
                && (a.Admitted? && body.code.Some? && body.clientId != "" && body.redirectUri != "" ==>
                      && Reaches(b.cfg, Goto(old(b.w).(db := counted), hid, TicketConsume(body.code.value, body.clientId, body.redirectUri)),
                                 hid, r, b.w)
                      && b.At(hid, Finished))
    {
      hide Reaches, GuardComesTo, CountedBy, RegistrationRedeemComesTo, Backend.Valid, Backend.At;
      ScopesDiffer();
      ghost var db0 := b.redis.db;
      ValidIs(b);
      var admission := guard.Admit(REGISTRATION_EXCHANGE_PER_IP, REGISTRATION_EXCHANGE_PER_CLIENT, ip, body.clientId, q);
      b.Recount(db0);
      if admission.TooManyRequests? {
        return Limited;
      }
      if admission.Unauthorized? {
        return BadSignature;
      }
      if body.code.None? || body.clientId == "" || body.redirectUri == "" {
        return BadExchange;
      }
      var ticket := body.code.value;
      CountingKeeps(db0, b.redis.now, REGISTRATION_EXCHANGE_PER_IP, REGISTRATION_EXCHANGE_PER_CLIENT, ip, body.clientId, TicketKey(ticket));
      b.Enter(hid, TicketConsume(ticket, body.clientId, body.redirectUri));
      var claims := Redeem(ticket, body.clientId, body.redirectUri, hid, r);
      reply := if claims.None? then BadExchange else Signed(claims.value);
    }
  }

  datatype LinkReply = LinkUnauthorized | LinkIncomplete | LinkConflict | LinkMade(identityId: Id)

  class IdentityLinkController {
    const b: Backend
    const verifier: InternalSigning.Verifier

    constructor (b: Backend, verifier: InternalSigning.Verifier)
      ensures this.b == b && this.verifier == verifier
    {
      this.b, this.verifier := b, verifier;
    }

    /** Signature, fields, then `identities.link`; no rate limit here. */
    method Link(a: LinkArgs, q: InternalSigning.Request, uuid: Id, ghost hid: Id, ghost r: Randoms) returns (reply: LinkReply)
      requires b.Valid() && hid !in b.w.handlers && r.uuid == uuid && uuid !in b.identities.rows
      modifies b`w, b.identities, verifier`nonceCache
      ensures b.Valid()
      ensures exists verdict {:trigger InternalSigning.VerifyComesTo(
                  verifier.p, verifier.secret, verifier.maxSkewSeconds, old(verifier.nonceCache), q,
                  b.redis.now, b.redis.now, verdict, verifier.nonceCache)} ::
                && InternalSigning.VerifyComesTo(verifier.p, verifier.secret, verifier.maxSkewSeconds, old(verifier.nonceCache), q,
                                                 b.redis.now, b.redis.now, verdict, verifier.nonceCache)
                && (if !verdict.Accepted? then reply == LinkUnauthorized && b.w == old(b.w) && b.identities.rows == old(b.identities.rows)
                    else if a.provider == "" || a.subject == "" || a.user == "" then
                      reply == LinkIncomplete && b.w == old(b.w) && b.identities.rows == old(b.identities.rows)
                    else
                      && Reaches(b.cfg, Goto(old(b.w), hid, LinkSelect(FromServer, a)), hid, r, b.w) && b.At(hid, Finished)
                      && (reply.LinkMade? || reply.LinkConflict?)
                      && LinkCallComesTo(a, old(b.identities.rows), if reply.LinkMade? then Linked(reply.identityId) else AlreadyLinked,
                                         b.identities.rows))
    {
      hide Reaches, InternalSigning.VerifyComesTo, LinkCallComesTo, Backend.At, Unique;
      var verification := verifier.Verify(q, b.redis.now, b.redis.now);
      if !verification.Accepted? {
        return LinkUnauthorized;
      }
      if a.provider == "" || a.subject == "" || a.user == "" {
        return LinkIncomplete;
      }
      b.Enter(hid, LinkSelect(FromServer, a));
      var result := b.LinkIdentity(hid, FromServer, a, uuid, r);
      reply := if result.Linked? then LinkMade(result.id) else LinkConflict;
    }
  }
}
