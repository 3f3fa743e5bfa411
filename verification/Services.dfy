/** The services as methods over the stores, each run from one end to the other without interruption.
    A ghost copy of the protocol's world is moved beside the real state: every method is proved to
    end in the state its handler reaches in module Protocol when no other handler moves. */
module Services {
  import opened Wrappers
  import opened Records
  import opened RedisKeyspace
  import opened IdentityTable
  import opened Registry
  import opened TenantKey
  import opened Stores
  import opened Protocol
  import opened ServiceSteps
  import opened Requirements

  /** The state the services share, and the commands they send to it. Each command is one or more
      steps of the handler that sends it; between two commands other requests may use the same
      backend. */
  class Backend {
    const cfg: Config
    const redis: RedisServer
    const identities: IdentityService
    const challenges: ChallengeStore
    const sessions: OAuthSessionStore
    var clients: Clients
    ghost var w: World

    constructor (cfg: Config, redis: RedisServer, identities: IdentityService, clients: Clients, ghost w: World)
      requires cfg.Valid() && Unique(identities.rows)
      requires w.now == redis.now && w.db == redis.db && w.rows == identities.rows && w.clients == clients
      ensures Valid() && this.w == w && this.redis == redis && this.identities == identities && this.cfg == cfg
    {
      this.cfg, this.redis, this.identities, this.clients, this.w := cfg, redis, identities, clients, w;
      this.challenges := new ChallengeStore(redis);
      this.sessions := new OAuthSessionStore(redis);
    }

    /** The real state is the machine's. */
    ghost predicate Valid()
      reads this, redis, identities
    {
      && cfg.Valid() && Unique(identities.rows)
      && challenges.redis == redis && sessions.redis == redis
      && w.now == redis.now && w.db == redis.db && w.rows == identities.rows && w.clients == clients
    }

    ghost predicate At(hid: Id, h: Handler)
      reads this`w
    {
      hid in w.handlers && w.handlers[hid] == h
    }

    /** Counters have been incremented since the two were equal. */
    ghost predicate ValidBefore(db: Keyspace)
      reads this, redis, identities
    {
      && cfg.Valid() && Unique(identities.rows)
      && challenges.redis == redis && sessions.redis == redis
      && w.now == redis.now && w.db == db && w.rows == identities.rows && w.clients == clients
    }

    /** The ghost world takes over the counters. */
    ghost method Recount(db: Keyspace)
      requires ValidBefore(db)
      modifies this`w
      ensures Valid() && w == old(w).(db := redis.db)
    {
      w := w.(db := redis.db);
    }

    /** A request enters. */
    ghost method Enter(hid: Id, h: Handler)
      requires Valid() && hid !in w.handlers
      modifies this`w
      ensures Valid() && At(hid, h) && w == Goto(old(w), hid, h)
    {
      w := Goto(w, hid, h);
    }

    /** The ghost world takes the handler's next step. */
    ghost method Advance(hid: Id, r: Randoms)
      modifies this`w
      ensures w == Moved(cfg, old(w), hid, r) && Reaches(cfg, old(w), hid, r, w)
    {
      hide Moved;
      ReachesOne(cfg, w, hid, r);
      w := Moved(cfg, w, hid, r);
    }

    /** `getChallenge` and the confirm checks. */
    method FindConfirmable(ghost hid: Id, ghost v: Visit, challenge: Id, ghost r: Randoms) returns (record: Option<ChallengeRecord>)
      requires Valid() && At(hid, ConfirmGet(v, challenge))
      modifies this`w
      ensures Valid() && Reaches(cfg, old(w), hid, r, w) && w.hist.outputs == old(w.hist.outputs)
      ensures record.Some? ==> record.value.kisUserId.Some? && record.value.authIdentityId.Some?
      ensures record == match Get(redis.db, ChallengeKey(challenge), redis.now)
                        case Some(ChallengeValue(c)) => if MayConfirm(c) then Some(c) else None
                        case _ => None
      ensures At(hid, if record.Some? then MarkGet(v, challenge, record.value) else Finished)
    {
      hide Moved, Unique, Reaches;
      var found := challenges.GetChallenge(challenge);
      EffectConfirmGet(cfg, w, hid, r, v, challenge);
      Advance(hid, r);
      record := if found.Some? && Confirmable(found.value) then found else None;
    }

    /** `markChallengeUsed`: up to three steps of the machine. */
    method MarkUsed(ghost hid: Id, ghost v: Visit, challenge: Id, ghost record: ChallengeRecord, ghost r: Randoms)
      requires Valid() && At(hid, MarkGet(v, challenge, record))
      modifies this`w, redis
      ensures Valid() && Reaches(cfg, old(w), hid, r, w) && w.hist.outputs == old(w.hist.outputs)
      ensures At(hid, IssueCode(v, challenge, record))
      ensures redis.now == old(redis.now)
      ensures redis.db == match Get(old(redis.db), ChallengeKey(challenge), redis.now)
                          case Some(ChallengeValue(c)) =>
                            var ttl := TtlReply(old(redis.db), ChallengeKey(challenge), redis.now);
                            if ttl > 0
                            then SetEx(old(redis.db), ChallengeKey(challenge), ChallengeValue(c.(used := true)), ttl, redis.now)
                            else old(redis.db)
                          case _ => old(redis.db)
    {
      hide Unique, Reaches, TtlReply, SetEx, HasSeconds, Rewritten;
      ghost var db0 := redis.db;
      ghost var w' := MarkedAlone(cfg, w, hid, r, v, challenge, record);
      challenges.MarkChallengeUsed(challenge, 0, 0);
      MarkIs(db0, redis.db, ChallengeKey(challenge), redis.now);
      w := w';
    }

    method IssueCodeFor(ghost hid: Id, ghost v: Visit, ghost challenge: Id, record: ChallengeRecord, code: Id, redirectUri: string,
                        ghost r: Randoms)
      requires Valid() && At(hid, IssueCode(v, challenge, record)) && r.code == code && v.session.redirectUri == redirectUri
      requires record.kisUserId.Some? && record.authIdentityId.Some?
      modifies this`w, redis`db
      ensures Valid() && Reaches(cfg, old(w), hid, r, w) && w.hist.outputs == old(w.hist.outputs) + [(v.sid, CodeOutput)]
      ensures At(hid, Finished)
      ensures redis.db == SetEx(
                old(redis.db), CodeKey(code),
                CodeValue(AuthorizationCodePayload(record.purpose, record.clientId, record.kisUserId.value, record.authIdentityId.value, redirectUri)),
                cfg.authCodeTtlSeconds, redis.now)
    {
      hide Moved, Unique, Reaches, SetEx;
      EffectIssueCode(cfg, w, hid, r, v, challenge, record);
      Advance(hid, r);
      challenges.IssueAuthorizationCode(
        code,
        AuthorizationCodePayload(record.purpose, record.clientId, record.kisUserId.value, record.authIdentityId.value, redirectUri),
        cfg.authCodeTtlSeconds);
    }

    /** `createChallenge` with a fresh record for the visit. */
    method NewChallenge(ghost hid: Id, ghost v: Visit, challenge: Id, record: ChallengeRecord, ghost r: Randoms)
      requires Valid() && At(hid, CreateChallenge(v, record)) && r.challenge == challenge
      modifies this`w, redis`db
      ensures Valid() && Reaches(cfg, old(w), hid, r, w) && w.hist.outputs == old(w.hist.outputs)
      ensures At(hid, if v.session.purpose == "link" then ConfirmGet(v, challenge) else ReturnClose(v, challenge))
      ensures redis.db == SetEx(old(redis.db), ChallengeKey(challenge), ChallengeValue(record), cfg.challengeTtlSeconds, redis.now)
    {
      hide Moved, Unique, Reaches, SetEx;
      EffectCreateChallenge(cfg, w, hid, r, v, record);
      Advance(hid, r);
      challenges.CreateChallenge(challenge, record, cfg.challengeTtlSeconds);
    }

    /** `sessions.delete`, from wherever the handler closes its session. */
    method DeleteSession(ghost hid: Id, sessionId: Id, ghost r: Randoms, ghost h: Handler, ghost answer: seq<(Id, Output)>)
      requires Valid() && hid in w.handlers
      requires Becomes(w, Moved(cfg, w, hid, r), hid, h, Del(w.db, SessionKey(sessionId)), w.rows, w.hist.outputs + answer)
      modifies this`w, redis`db
      ensures Valid() && Reaches(cfg, old(w), hid, r, w) && w.hist.outputs == old(w.hist.outputs) + answer
      ensures At(hid, h)
      ensures redis.db == Del(old(redis.db), SessionKey(sessionId))
    {
      hide Moved, Unique, Reaches, Del;
      Advance(hid, r);
      sessions.Delete(sessionId);
    }

    method IssueTicket(ghost hid: Id, ghost v: Visit, code: Id, payload: RegistrationTicketPayload, ghost r: Randoms)
      requires Valid() && At(hid, RegisterIssue(v)) && r.code == code && payload == TicketFor(v)
      modifies this`w, redis`db
      ensures Valid() && Reaches(cfg, old(w), hid, r, w) && w.hist.outputs == old(w.hist.outputs) + [(v.sid, TicketOutput)]
      ensures At(hid, Finished)
      ensures redis.db == SetEx(old(redis.db), TicketKey(code), TicketValue(payload), cfg.authCodeTtlSeconds, redis.now)
    {
      hide Moved, Unique, Reaches, TicketFor, SetEx;
      EffectRegisterIssue(cfg, w, hid, r, v);
      Advance(hid, r);
      challenges.IssueRegistrationTicket(code, payload, cfg.authCodeTtlSeconds);
    }

    /** `identities.link`, up to three steps of the machine. */
    method LinkIdentity(ghost hid: Id, ghost src: LinkSource, a: LinkArgs, uuid: Id, ghost r: Randoms) returns (result: LinkResult)
      requires Valid() && At(hid, LinkSelect(src, a)) && r.uuid == uuid && uuid !in identities.rows
      modifies this`w, identities
      ensures Valid() && Reaches(cfg, old(w), hid, r, w) && w.hist.outputs == old(w.hist.outputs)
      ensures At(hid, if src.FromCallback? then LinkClose(src.visit, result) else Finished)
      ensures LinkCallComesTo(a, old(identities.rows), result, identities.rows)
    {
      hide Reaches, LinkAlone, Unique, LinkCallComesTo;
      ghost var w' := LinkedAlone(cfg, w, hid, r, src, a);
      result := identities.Link(a, uuid);
      w := w';
    }

    /** `findByProviderSubject`. */
    method FindIdentityOf(ghost hid: Id, ghost v: Visit, provider: string, subject: string, ghost r: Randoms)
      returns (found: Option<Id>, user: string)
      requires Valid() && At(hid, FindIdentity(v)) && provider == ProviderOf(v.route) && subject == SubjectOf(v.route, v.who.sub)
      modifies this`w
      ensures Valid() && Reaches(cfg, old(w), hid, r, w) && w.hist.outputs == old(w.hist.outputs)
      ensures At(hid, if v.session.purpose == "registration" then RegisterClose(v, found.Some?)
                      else if found.None? then CloseAndEnd(v.sid, true)
                      else Touch(v, found.value, user))
      ensures found.None? ==> forall i :: i in identities.rows ==> identities.rows[i].provider != provider || identities.rows[i].subject != subject
      ensures found.Some? ==> found.value in identities.rows && identities.rows[found.value].provider == provider
                              && identities.rows[found.value].subject == subject && identities.rows[found.value].user == user
    {
      hide Moved, Unique, Reaches, FindByKey, ProviderOf, SubjectOf;
      EffectFindIdentity(cfg, w, hid, r, v);
      Advance(hid, r);
      found := identities.FindByProviderSubject(provider, subject);
      user := if found.Some? then identities.rows[found.value].user else "";
    }

    /** `touchLastAuthenticated`: a column nothing here reads. */
    method TouchIdentity(ghost hid: Id, ghost v: Visit, row: Id, user: string, ghost r: Randoms)
      requires Valid() && At(hid, Touch(v, row, user))
      modifies this`w
      ensures Valid() && Reaches(cfg, old(w), hid, r, w) && w.hist.outputs == old(w.hist.outputs)
      ensures At(hid, CreateChallenge(v, RecordFor(cfg, v, user, row)))
    {
      hide Moved, Unique, Reaches, RecordFor;
      EffectTouch(cfg, w, hid, r, v, row, user);
      Advance(hid, r);
    }

    /** The client lookup of `/authorize`, its checks, and the expiry check of a link ticket. */
    method CheckRequest(ghost hid: Id, q: AuthorizeRequest, ghost r: Randoms) returns (ok: bool)
      requires Valid() && At(hid, AuthorizeLookup(q))
      modifies this`w
      ensures Valid() && Reaches(cfg, old(w), hid, r, w) && w.hist.outputs == old(w.hist.outputs)
      ensures ok <==> && Registered(clients, q) && q.clientState != ""
                      && (q.partnerSlug.Some? ==> SlugShaped(q.partnerSlug.value))
                      && (q.purpose == "link" ==> q.ticket.Some? && q.ticket.value.exp > redis.now / 1000)
      ensures At(hid, if !ok then Finished
                      else if q.purpose == "link" then AuthorizeClaim(q, q.ticket.value, redis.now / 1000)
                      else AuthorizeSave(q, None))
    {
      hide Moved, Unique, Reaches, IsSlug, SlugShaped;
      if q.partnerSlug.Some? {
        SlugIsShaped(q.partnerSlug.value);
      }
      ghost var w' := CheckedAlone(cfg, w, hid, r, q);
      w := w';
      var known := q.clientId in clients && IsRedirectUriAllowed(clients[q.clientId], q.redirectUri);
      if !known || !IsPurposeAllowed(clients[q.clientId], q.purpose) || q.clientState == "" {
        return false;
      }
      if q.partnerSlug.Some? && !IsSlug(q.partnerSlug.value) {
        return false;
      }
      ok := q.purpose != "link" || (q.ticket.Some? && q.ticket.value.exp > redis.now / 1000);
    }

    /** The link ticket's SET NX. */
    method ClaimTicket(ghost hid: Id, q: AuthorizeRequest, t: LinkTicket, readAt: int, ghost r: Randoms) returns (ok: bool)
      requires Valid() && At(hid, AuthorizeClaim(q, t, readAt))
      modifies this`w, redis`db
      ensures Valid() && Reaches(cfg, old(w), hid, r, w) && w.hist.outputs == old(w.hist.outputs)
      ensures ok == !Live(old(redis.db), LinkNonceKey(t.nonce), redis.now)
      ensures At(hid, if ok then AuthorizeSave(q, NonEmpty(t.kisUserId)) else Finished)
      ensures redis.db == if !ok then old(redis.db)
                          else
                            var ttl := if t.exp - readAt > 1 then t.exp - readAt else 1;
                            old(redis.db)[LinkNonceKey(t.nonce) := Entry(Claimed, Some(redis.now + ttl * 1000))]
    {
      hide Moved, Unique, Reaches, NonEmpty;
      EffectAuthorizeClaim(cfg, w, hid, r, q, t, readAt);
      Advance(hid, r);
      ok := redis.SetNx(LinkNonceKey(t.nonce), Claimed, if t.exp - readAt > 1 then t.exp - readAt else 1);
    }

    /** `sessions.create`. */
    method CreateSession(ghost hid: Id, q: AuthorizeRequest, linkUser: Option<string>, sessionId: Id, state: nat,
                         nonce: nat, ghost r: Randoms)
      requires Valid() && At(hid, AuthorizeSave(q, linkUser)) && r.session == sessionId && r.state == state && r.nonce == nonce
      modifies this`w, redis`db
      ensures Valid() && Reaches(cfg, old(w), hid, r, w) && w.hist.outputs == old(w.hist.outputs)
      ensures At(hid, Finished)
      ensures redis.db == old(redis.db)[SessionKey(sessionId) := Entry(
                SessionValue(OAuthSession(q.clientId, q.redirectUri, q.purpose, state, nonce, q.clientState, None, linkUser, q.partnerSlug)),
                Some(redis.now + 600_000))]
    {
      hide Moved, Unique, Reaches;
      EffectAuthorizeSave(cfg, w, hid, r, q, linkUser);
      Advance(hid, r);
      sessions.Create(
        sessionId,
        OAuthSession(q.clientId, q.redirectUri, q.purpose, state, nonce, q.clientState, None, linkUser, q.partnerSlug));
    }

    /** `sessions.get` at a start, with the tenant check; a Google start draws its verifier at once. */
    method ReadForStart(ghost hid: Id, route: Route, sid: Id, verifier: Id, ghost r: Randoms) returns (found: Option<OAuthSession>)
      requires Valid() && At(hid, StartGet(route, sid)) && r.verifier == verifier
      modifies this`w
      ensures Valid() && Reaches(cfg, old(w), hid, r, w) && w.hist.outputs == old(w.hist.outputs)
      ensures var s := SessionIn(redis.db, sid, redis.now);
              found == if s.Some? && ForRoute(route, s.value) then s else None
      ensures At(hid, if found.None? then Finished
                      else if route.Enterprise? then StartResolve(sid, found.value)
                      else StartTtl(sid, found.value.(codeVerifier := Some(verifier))))
    {
      hide Moved, Unique, Reaches, RouteServes;
      EffectStartGet(cfg, w, hid, r, route, sid);
      Advance(hid, r);
      found := sessions.GetSession(sid);
      if found.Some? && route.Enterprise? && found.value.partnerSlug != Some(route.slug) {
        RouteRefuses(route, found.value);
        return None;
      }
      if found.Some? {
        RouteRefuses(route, found.value);
      }
    }

    /** Tenant configuration and discovery at a start: resolved or not. */
    method ResolveForStart(ghost hid: Id, sid: Id, s: OAuthSession, resolved: bool, verifier: Id, ghost r: Randoms)
      requires Valid() && At(hid, StartResolve(sid, s)) && r.resolved == resolved && r.verifier == verifier
      modifies this`w
      ensures Valid() && Reaches(cfg, old(w), hid, r, w) && w.hist.outputs == old(w.hist.outputs)
      ensures At(hid, if resolved then StartTtl(sid, s.(codeVerifier := Some(verifier))) else CloseAndEnd(sid, false))
    {
      hide Moved, Unique, Reaches;
      EffectStartResolve(cfg, w, hid, r, sid, s);
      Advance(hid, r);
    }

    /** `sessions.update`: two steps of the machine. */
    method UpdateSession(ghost hid: Id, sid: Id, s: OAuthSession, ghost r: Randoms)
      requires Valid() && At(hid, StartTtl(sid, s))
      modifies this`w, redis
      ensures Valid() && Reaches(cfg, old(w), hid, r, w) && w.hist.outputs == old(w.hist.outputs)
      ensures At(hid, Finished)
      ensures redis.now == old(redis.now)
      ensures var ttl := TtlReply(old(redis.db), SessionKey(sid), redis.now);
              redis.db == old(redis.db)[SessionKey(sid) := Entry(SessionValue(s), Some(redis.now + (if ttl > 0 then ttl else 600) * 1000))]
    {
      hide Unique, Reaches, TtlReply;
      ghost var w' := UpdatedAlone(cfg, w, hid, r, sid, s);
      sessions.Update(sid, s, 0);
      w := w';
    }

    /** `sessions.get` at a callback, and every check before the network is used. */
    method ReadForCallback(ghost hid: Id, route: Route, sid: Id, cb: CallbackRequest,
                           ghost r: Randoms) returns (found: Option<OAuthSession>)
      requires Valid() && At(hid, CallbackGet(route, sid, cb))
      modifies this`w
      ensures Valid() && Reaches(cfg, old(w), hid, r, w) && w.hist.outputs == old(w.hist.outputs)
      ensures var s := SessionIn(redis.db, sid, redis.now);
              found == if s.Some? && ForRoute(route, s.value) && cb.state == Some(s.value.state)
                          && (cb.hasError || (cb.hasCode && s.value.codeVerifier.Some?))
                       then s else None
      ensures At(hid, if found.None? then Finished
                      else if cb.hasError then CloseAndEnd(sid, true)
                      else if route.Enterprise? then CallbackResolve(route, sid, found.value)
                      else CallbackVerify(route, sid, found.value))
    {
      hide Moved, Unique, Reaches, RouteServes;
      EffectCallbackGet(cfg, w, hid, r, route, sid, cb);
      Advance(hid, r);
      found := sessions.GetSession(sid);
      if found.None? {
        return None;
      }
      RouteRefuses(route, found.value);
      if (route.Enterprise? && found.value.partnerSlug != Some(route.slug)) || cb.state != Some(found.value.state) {
        return None;
      }
      if !cb.hasError && (!cb.hasCode || found.value.codeVerifier.None?) {
        return None;
      }
    }

    method ResolveForCallback(ghost hid: Id, route: Route, sid: Id, s: OAuthSession, resolved: bool, ghost r: Randoms)
      requires Valid() && At(hid, CallbackResolve(route, sid, s)) && r.resolved == resolved
      modifies this`w
      ensures Valid() && Reaches(cfg, old(w), hid, r, w) && w.hist.outputs == old(w.hist.outputs)
      ensures At(hid, if resolved then CallbackVerify(route, sid, s) else CloseAndEnd(sid, false))
    {
      hide Moved, Unique, Reaches;
      EffectCallbackResolve(cfg, w, hid, r, route, sid, s);
      Advance(hid, r);
    }

    /** Token exchange and ID-token verification: `verified` with the identity `who`, or a failure. */
    method VerifyIdentity(ghost hid: Id, route: Route, sid: Id, s: OAuthSession, verified: bool, who: Verified,
                          ghost r: Randoms) returns (ok: bool)
      requires Valid() && At(hid, CallbackVerify(route, sid, s)) && r.verified == verified && r.who == who
      modifies this`w
      ensures Valid() && Reaches(cfg, old(w), hid, r, w) && w.hist.outputs == old(w.hist.outputs)
      ensures ok == (verified && who.sub != "" && s.codeVerifier.Some?)
      ensures var v := Visit(route, sid, s, who);
              At(hid, if !ok then CloseAndEnd(sid, true)
                      else if s.purpose != "link" then FindIdentity(v)
                      else if s.linkKisUserId.None? then CloseAndEnd(sid, false)
                      else LinkSelect(FromCallback(v), ArgsOf(v)))
    {
      hide Moved, Unique, Reaches, ArgsOf;
      EffectCallbackVerify(cfg, w, hid, r, route, sid, s);
      Advance(hid, r);
      ok := verified && who.sub != "" && s.codeVerifier.Some?;
    }

    /** `consumeAuthorizationCode`, and the client and redirect target of the request. Keys of the
        code family hold codes. */
    method ConsumeCode(ghost hid: Id, code: Id, clientId: string, redirectUri: string, ghost r: Randoms)
      returns (found: Option<AuthorizationCodePayload>)
      requires Valid() && At(hid, ExchangeConsume(code, clientId, redirectUri)) && clientId != "" && redirectUri != ""
      requires CodeKey(code) in redis.db ==> redis.db[CodeKey(code)].value.CodeValue?
      modifies this`w, redis`db
      ensures Valid() && Reaches(cfg, old(w), hid, r, w) && w.hist.tokens == old(w.hist.tokens)
      ensures At(hid, if found.Some? then ExchangeFind(code, found.value) else Finished)
      ensures found == match Get(old(redis.db), CodeKey(code), redis.now)
                       case Some(CodeValue(p)) => if p.clientId == clientId && p.redirectUri == redirectUri then Some(p) else None
                       case _ => None
      ensures redis.db == Consumed(old(redis.db), CodeKey(code), redis.now)
    {
      hide Moved, Unique, Reaches;
      EffectExchangeConsume(cfg, w, hid, r, code, clientId, redirectUri);
      Advance(hid, r);
      var payload := challenges.ConsumeAuthorizationCode(code);
      if payload.None? {
        return None;
      }
      if payload.value.clientId != clientId || payload.value.redirectUri != redirectUri {
        return None;
      }
      found := payload;
    }

    /** `findById`, and the checks on the row it finds. */
    method FindActive(ghost hid: Id, ghost code: Id, p: AuthorizationCodePayload, ghost r: Randoms) returns (row: Option<Row>)
      requires Valid() && At(hid, ExchangeFind(code, p))
      modifies this`w
      ensures Valid() && Reaches(cfg, old(w), hid, r, w) && w.hist.tokens == old(w.hist.tokens)
      ensures row == if p.authIdentityId in identities.rows && identities.rows[p.authIdentityId].status == Active
                        && identities.rows[p.authIdentityId].user == p.kisUserId
                     then Some(identities.rows[p.authIdentityId]) else None
      ensures At(hid, if row.Some? then ExchangeSign(code, p, row.value.email, row.value.emailVerified, Index(old(w))) else Finished)
    {
      hide Moved, Unique, Reaches, Index;
      EffectExchangeFind(cfg, w, hid, r, code, p);
      Advance(hid, r);
      row := identities.FindById(p.authIdentityId);
      if row.Some? && (row.value.status != Active || row.value.user != p.kisUserId) {
        return None;
      }
    }

    /** The token the machine records for the claims signed. */
    ghost method SignAuthorization(hid: Id, code: Id, p: AuthorizationCodePayload, email: Option<string>, emailVerified: bool, foundAt: nat,
                                   r: Randoms)
      requires Valid() && At(hid, ExchangeSign(code, p, email, emailVerified, foundAt))
      modifies this`w
      ensures Valid() && Reaches(cfg, old(w), hid, r, w) && At(hid, Finished)
      ensures w.hist.tokens == old(w.hist.tokens)
              + [AuthToken(code, hid, p.kisUserId, p.clientId, p.purpose, p.authIdentityId, p.redirectUri, email, emailVerified, foundAt, Index(old(w)))]
    {
      hide Moved, Unique, Reaches, Index;
      EffectExchangeSign(cfg, w, hid, r, code, p, email, emailVerified, foundAt);
      Advance(hid, r);
    }

    /** `consumeRegistrationTicket`, and the client and redirect target of the request. */
    method ConsumeTicket(ghost hid: Id, code: Id, clientId: string, redirectUri: string, ghost r: Randoms)
      returns (found: Option<RegistrationTicketPayload>)
      requires Valid() && At(hid, TicketConsume(code, clientId, redirectUri)) && clientId != "" && redirectUri != ""
      requires TicketKey(code) in redis.db ==> redis.db[TicketKey(code)].value.TicketValue?
      modifies this`w, redis`db
      ensures Valid() && Reaches(cfg, old(w), hid, r, w) && w.hist.tokens == old(w.hist.tokens)
      ensures At(hid, if found.Some? then TicketSign(code, found.value) else Finished)
      ensures found == match Get(old(redis.db), TicketKey(code), redis.now)
                       case Some(TicketValue(p)) => if p.clientId == clientId && p.redirectUri == redirectUri then Some(p) else None
                       case _ => None
      ensures redis.db == Consumed(old(redis.db), TicketKey(code), redis.now)
    {
      hide Moved, Unique, Reaches;
      EffectTicketConsume(cfg, w, hid, r, code, clientId, redirectUri);
      Advance(hid, r);
      var payload := challenges.ConsumeRegistrationTicket(code);
      if payload.None? {
        return None;
      }
      if payload.value.clientId != clientId || payload.value.redirectUri != redirectUri {
        return None;
      }
      found := payload;
    }

    ghost method SignRegistration(hid: Id, code: Id, p: RegistrationTicketPayload, r: Randoms)
      requires Valid() && At(hid, TicketSign(code, p))
      modifies this`w
      ensures Valid() && Reaches(cfg, old(w), hid, r, w) && At(hid, Finished)
      ensures w.hist.tokens == old(w.hist.tokens)
              + [RegistrationToken(code, hid, p.clientId, p.purpose, p.provider, p.providerSubject, p.providerEmail, p.providerEmailVerified,
                                   p.partnerSlug, p.redirectUri, Index(old(w)))]
    {
      hide Moved, Unique, Reaches, Index;
      EffectTicketSign(cfg, w, hid, r, code, p);
      Advance(hid, r);
    }
  }

  lemma SlugIsShaped(s: string)
    ensures IsSlug(s) <==> SlugShaped(s)
  {
    if SlugShaped(s) {
      forall i | 0 <= i < |s| ensures 'a' <= s[i] <= 'z' || '0' <= s[i] <= '9' || s[i] == '-' {
        assert s[i] in s;
      }
    }
  }

  lemma RouteRefuses(route: Route, s: OAuthSession)
    ensures RouteServes(route, s) <==> !(route.Enterprise? && s.partnerSlug != Some(route.slug))
    ensures RouteServes(route, s) <==> ForRoute(route, s)
  {
  }

  /** The outcome the machine records for a reply. */
  function OutputOf(sid: Id, reply: Reply): seq<(Id, Output)> {
    match reply
    case BadRequest => []
    case ErrorRedirect => [(sid, ErrorOutput)]
    case TicketRedirect(_) => [(sid, TicketOutput)]
    case CodeRedirect(_) => [(sid, CodeOutput)]
  }

  class OAuthOutcomeService {
    const b: Backend

    constructor (b: Backend)
      ensures this.b == b
    {
      this.b := b;
    }

    method FinalizeLink(ghost hid: Id, v: Visit, uuid: Id, challenge: Id, code: Id, ghost r: Randoms) returns (reply: Reply)
      requires b.Valid() && r.uuid == uuid && r.challenge == challenge && r.code == code && uuid !in b.identities.rows
      requires v.session.purpose == "link"
      requires b.At(hid, if v.session.linkKisUserId.None? then CloseAndEnd(v.sid, false) else LinkSelect(FromCallback(v), ArgsOf(v)))
      modifies b`w, b.redis, b.identities
      ensures b.Valid() && b.At(hid, Finished) && Reaches(b.cfg, old(b.w), hid, r, b.w)
      ensures b.w.hist.outputs == old(b.w.hist.outputs) + OutputOf(v.sid, reply)
      ensures b.redis.now == old(b.redis.now)
      ensures LinkComesTo(b.cfg, v, challenge, code, b.redis.now, old(b.redis.db), old(b.identities.rows), reply, b.redis.db, b.identities.rows)
    {
      hide Reaches, Backend.Valid, Backend.At, Becomes, LinkComesTo, LinkCallComesTo, CodeComesTo, ConfirmComesTo, TtlReply, ArgsOf,
           LinkIsTaken, LinksRow, SameExcept, KnownAs, SetEx, Del, Moved, SessionIn, ForRoute, MayConfirm, Unique;
      ValidConfig(b);
      ghost var w0, rows0, db0 := b.w, b.identities.rows, b.redis.db;
      if v.session.linkKisUserId.None? {
        CloseEffect(b, hid, r, v.sid, false);
        b.DeleteSession(hid, v.sid, r, Finished, []);
        LinkEnds(b.cfg, v, challenge, code, b.redis.now, db0, rows0, BadRequest, b.redis.db);
        return BadRequest;
      }
      var provider := if v.route.Google? then "google" else "oidc";
      var subject := if v.route.Google? then v.who.sub else v.route.slug + ":" + v.who.sub;
      var args := LinkArgs(provider, subject, v.session.linkKisUserId.value, v.who.email, v.who.emailVerified);
      NamesAre(v, provider, subject);
      ArgsAre(v, args);
      var result := b.LinkIdentity(hid, FromCallback(v), args, uuid, r);
      CallIsLink(v, args, rows0, result, b.identities.rows);
      ghost var w1 := b.w;
      LinkCloseEffect(b, hid, r, v, result);
      if result.AlreadyLinked? {
        b.DeleteSession(hid, v.sid, r, Finished, [(v.sid, ErrorOutput)]);
        ReachesOn(b.cfg, w0, hid, r, w1, b.w);
        LinkEnds(b.cfg, v, challenge, code, b.redis.now, db0, rows0, ErrorRedirect, b.redis.db);
        return ErrorRedirect;
      }
      var record := ChallengeRecord("link", v.session.clientId, v.session.linkKisUserId, Some(result.id), 0, b.cfg.challengeMaxAttempts, false);
      b.DeleteSession(hid, v.sid, r, CreateChallenge(v, record), []);
      ReachesOn(b.cfg, w0, hid, r, w1, b.w);
      ghost var w2 := b.w;
      b.NewChallenge(hid, v, challenge, record, r);
      ReachesOn(b.cfg, w0, hid, r, w2, b.w);
      ghost var w3, db3 := b.w, b.redis.db;
      reply := ConfirmAndRedirect(hid, v, challenge, v.session.redirectUri, code, r);
      ReachesOn(b.cfg, w0, hid, r, w3, b.w);
      FreshChallengeConfirms(b.cfg, v, "link", args.user, result.id, challenge, code, b.redis.now, db0, db3, reply, b.redis.db);
      LinkGoesOn(b.cfg, v, challenge, code, b.redis.now, db0, rows0, result.id, reply, b.redis.db, b.identities.rows);
    }

    method FinalizeRegistration(ghost hid: Id, v: Visit, known: bool, code: Id, ghost r: Randoms) returns (reply: Reply)
      requires b.Valid() && r.code == code && b.At(hid, RegisterClose(v, known))
      modifies b`w, b.redis`db
      ensures b.Valid() && b.At(hid, Finished) && Reaches(b.cfg, old(b.w), hid, r, b.w)
      ensures b.w.hist.outputs == old(b.w.hist.outputs) + OutputOf(v.sid, reply)
      ensures RegistrationComesTo(b.cfg, v, known, code, b.redis.now, old(b.redis.db), reply, b.redis.db)
    {
      hide Reaches, Backend.Valid, Backend.At, Becomes, RegistrationComesTo, TicketFor, KnownAs, TicketNames, SetEx, Del;
      ghost var w0, db0 := b.w, b.redis.db;
      RegisterCloseEffect(b, hid, r, v, known);
      if known {
        b.DeleteSession(hid, v.sid, r, Finished, [(v.sid, ErrorOutput)]);
        KnownEnds(b.cfg, v, code, b.redis.now, db0);
        return ErrorRedirect;
      }
      b.DeleteSession(hid, v.sid, r, RegisterIssue(v), []);
      ghost var w1 := b.w;
      var payload := RegistrationTicketPayload(
        v.session.clientId,
        if v.route.Google? then "registration" else "enterprise_sso_registration",
        if v.route.Google? then "google" else "oidc",
        if v.route.Google? then v.who.sub else v.route.slug + ":" + v.who.sub,
        v.who.email, v.who.emailVerified,
        if v.route.Google? then None else Some(v.route.slug),
        v.session.redirectUri);
      PayloadIs(v, payload);
      b.IssueTicket(hid, v, code, payload, r);
      TicketLeft(b.cfg, v, code, b.redis.now, db0, payload);
      ReachesOn(b.cfg, w0, hid, r, w1, b.w);
      reply := TicketRedirect(code);
    }

    method FinalizeReturningUser(ghost hid: Id, v: Visit, identity: Option<Id>, user: string, challenge: Id, code: Id, ghost r: Randoms)
      returns (reply: Reply)
      requires b.Valid() && r.challenge == challenge && r.code == code && v.session.purpose != "link"
      requires b.At(hid, if identity.None? then CloseAndEnd(v.sid, true) else Touch(v, identity.value, user))
      modifies b`w, b.redis
      ensures b.Valid() && b.At(hid, Finished) && Reaches(b.cfg, old(b.w), hid, r, b.w)
      ensures b.w.hist.outputs == old(b.w.hist.outputs) + OutputOf(v.sid, reply)
      ensures b.redis.now == old(b.redis.now)
      ensures ReturnComesTo(b.cfg, v, identity, user, challenge, code, b.redis.now, old(b.redis.db), reply, b.redis.db)
    {
      hide Reaches, Backend.Valid, Backend.At, Becomes, CodeComesTo, ConfirmComesTo, TtlReply, SameExcept, SetEx, Del;
      ValidConfig(b);
      ghost var w0, db0 := b.w, b.redis.db;
      if identity.None? {
        CloseEffect(b, hid, r, v.sid, true);
        b.DeleteSession(hid, v.sid, r, Finished, [(v.sid, ErrorOutput)]);
        Deleted(db0, SessionKey(v.sid));
        return ErrorRedirect;
      }
      b.TouchIdentity(hid, v, identity.value, user, r);
      ghost var w1 := b.w;
      var record := ChallengeRecord(v.session.purpose, v.session.clientId, Some(user), identity, 0, b.cfg.challengeMaxAttempts, false);
      b.NewChallenge(hid, v, challenge, record, r);
      ReachesOn(b.cfg, w0, hid, r, w1, b.w);
      ghost var w2 := b.w;
      ReturnCloseEffect(b, hid, r, v, challenge);
      b.DeleteSession(hid, v.sid, r, ConfirmGet(v, challenge), []);
      ReachesOn(b.cfg, w0, hid, r, w2, b.w);
      ghost var w3, db3 := b.w, b.redis.db;
      reply := ConfirmAndRedirect(hid, v, challenge, v.session.redirectUri, code, r);
      ReachesOn(b.cfg, w0, hid, r, w3, b.w);
      FreshChallengeConfirms(b.cfg, v, v.session.purpose, user, identity.value, challenge, code, b.redis.now, db0, db3, reply, b.redis.db);
    }

    method ConfirmAndRedirect(ghost hid: Id, ghost v: Visit, challenge: Id, redirectUri: string, code: Id, ghost r: Randoms)
      returns (reply: Reply)
      requires b.Valid() && b.At(hid, ConfirmGet(v, challenge)) && v.session.redirectUri == redirectUri && r.code == code
      modifies b`w, b.redis
      ensures b.Valid() && b.At(hid, Finished) && Reaches(b.cfg, old(b.w), hid, r, b.w)
      ensures b.w.hist.outputs == old(b.w.hist.outputs) + OutputOf(v.sid, reply)
      ensures b.redis.now == old(b.redis.now)
      ensures ConfirmComesTo(b.cfg, challenge, redirectUri, code, b.redis.now, old(b.redis.db), reply, b.redis.db)
    {
      hide Reaches, Backend.Valid, Backend.At, TtlReply, SetEx;
      ghost var w0, db0 := b.w, b.redis.db;
      var record := b.FindConfirmable(hid, v, challenge, r);
      if record.None? {
        return BadRequest;
      }
      ghost var w1 := b.w;
      b.MarkUsed(hid, v, challenge, record.value, r);
      ReachesOn(b.cfg, w0, hid, r, w1, b.w);
      ghost var w2, db1 := b.w, b.redis.db;
      b.IssueCodeFor(hid, v, challenge, record.value, code, redirectUri, r);
      ReachesOn(b.cfg, w0, hid, r, w2, b.w);
      reply := CodeRedirect(code);
      ConfirmLeaves(b.cfg, challenge, redirectUri, code, b.redis.now, db0, record.value, db1, b.redis.db);
    }
  }

  lemma ConfirmLeaves(cfg: Config, challenge: Id, redirectUri: string, code: Id, now: int, db: Keyspace, c: ChallengeRecord,
                      marked: Keyspace, db': Keyspace)
    requires var k := ChallengeKey(challenge);
             var ttl := TtlReply(db, k, now);
             && Get(db, k, now) == Some(ChallengeValue(c)) && MayConfirm(c)
             && marked == (if ttl > 0 then SetEx(db, k, ChallengeValue(c.(used := true)), ttl, now) else db)
    requires db' == SetEx(marked, CodeKey(code),
                          CodeValue(AuthorizationCodePayload(c.purpose, c.clientId, c.kisUserId.value, c.authIdentityId.value, redirectUri)),
                          cfg.authCodeTtlSeconds, now)
    ensures ConfirmComesTo(cfg, challenge, redirectUri, code, now, db, CodeRedirect(code), db')
  {
  }

  // ---------------------------------------------------------------- the records a callback leaves

  /** The rewrite of a challenge, at once, in the words of the protocol. */
  lemma MarkIs(db: Keyspace, db': Keyspace, k: Key, now: int)
    requires if HasSeconds(db, k, now) && db[k].value.ChallengeValue?
             then Rewritten(db, db', k, ChallengeValue(db[k].value.challenge.(used := true)), now, now)
             else db' == db
    ensures db' == match Get(db, k, now)
                   case Some(ChallengeValue(c)) =>
                     var ttl := TtlReply(db, k, now);
                     if ttl > 0 then SetEx(db, k, ChallengeValue(c.(used := true)), ttl, now) else db
                   case _ => db
  {
    hide Rewritten;
    if k in db && db[k].value.ChallengeValue? {
      RewrittenIs(db, db', k, ChallengeValue(db[k].value.challenge.(used := true)), now, now);
    }
  }

  lemma Deleted(db: Keyspace, k: Key)
    ensures Del(db, k) == db - {k}
  {
  }

  lemma ConsumedIs(db: Keyspace, k: Key, now: int)
    ensures Consumed(db, k, now) == if Live(db, k, now) then db - {k} else db
  {
  }

  lemma ValidConfig(b: Backend)
    requires b.Valid()
    ensures b.cfg.Valid()
  {
  }

  lemma LinkEnds(cfg: Config, v: Visit, challenge: Id, code: Id, now: int, db: Keyspace, rows: Table, reply: Reply, db': Keyspace)
    requires db' == Del(db, SessionKey(v.sid))
    requires if v.session.linkKisUserId.None? then reply == BadRequest
             else reply == ErrorRedirect && LinkIsTaken(rows, v, v.session.linkKisUserId.value)
    ensures LinkComesTo(cfg, v, challenge, code, now, db, rows, reply, db', rows)
  {
  }

  lemma KnownEnds(cfg: Config, v: Visit, code: Id, now: int, db: Keyspace)
    ensures RegistrationComesTo(cfg, v, true, code, now, db, ErrorRedirect, Del(db, SessionKey(v.sid)))
  {
  }

  /** The payload names the verified identity, its e-mail, the session's client and the route's purpose. */
  predicate TicketNames(v: Visit, t: RegistrationTicketPayload) {
    && KnownAs(v.route, v.who.sub, t.provider, t.providerSubject)
    && t.providerEmail == v.who.email && t.providerEmailVerified == v.who.emailVerified
    && t.clientId == v.session.clientId && t.redirectUri == v.session.redirectUri
    && (match v.route
        case Google => t.purpose == "registration" && t.partnerSlug == None
        case Enterprise(slug) => t.purpose == "enterprise_sso_registration" && t.partnerSlug == Some(slug))
  }

  lemma PayloadIs(v: Visit, t: RegistrationTicketPayload)
    requires t == RegistrationTicketPayload(
               v.session.clientId, if v.route.Google? then "registration" else "enterprise_sso_registration",
               if v.route.Google? then "google" else "oidc",
               if v.route.Google? then v.who.sub else v.route.slug + ":" + v.who.sub,
               v.who.email, v.who.emailVerified, if v.route.Google? then None else Some(v.route.slug), v.session.redirectUri)
    ensures TicketNames(v, t) && t == TicketFor(v)
  {
  }

  lemma TicketLeft(cfg: Config, v: Visit, code: Id, now: int, db: Keyspace, t: RegistrationTicketPayload)
    requires TicketNames(v, t)
    ensures RegistrationComesTo(cfg, v, false, code, now, db, TicketRedirect(code),
                                SetEx(Del(db, SessionKey(v.sid)), TicketKey(code), TicketValue(t), cfg.authCodeTtlSeconds, now))
  {
  }

  lemma LinkGoesOn(cfg: Config, v: Visit, challenge: Id, code: Id, now: int, db: Keyspace, rows: Table, id: Id,
                   reply: Reply, db': Keyspace, rows': Table)
    requires v.session.linkKisUserId.Some? && !LinkIsTaken(rows, v, v.session.linkKisUserId.value)
    requires LinksRow(rows, rows', id, v, v.session.linkKisUserId.value)
    requires CodeComesTo(cfg, v, "link", v.session.linkKisUserId.value, id, challenge, code, now, db, reply, db')
    ensures LinkComesTo(cfg, v, challenge, code, now, db, rows, reply, db', rows')
  {
    hide LinkIsTaken, LinksRow, CodeComesTo;
  }

  lemma NamesAre(v: Visit, provider: string, subject: string)
    requires provider == (if v.route.Google? then "google" else "oidc")
    requires subject == (if v.route.Google? then v.who.sub else v.route.slug + ":" + v.who.sub)
    ensures KnownAs(v.route, v.who.sub, provider, subject)
  {
  }

  lemma ArgsAre(v: Visit, a: LinkArgs)
    requires v.session.linkKisUserId.Some? && KnownAs(v.route, v.who.sub, a.provider, a.subject)
    requires a.user == v.session.linkKisUserId.value && a.email == v.who.email && a.emailVerified == v.who.emailVerified
    ensures a == ArgsOf(v)
  {
  }

  /** A `link` call with a callback's arguments, told of the visit. */
  lemma CallIsLink(v: Visit, a: LinkArgs, rows: Table, result: LinkResult, rows': Table)
    requires KnownAs(v.route, v.who.sub, a.provider, a.subject) && a.email == v.who.email && a.emailVerified == v.who.emailVerified
    requires LinkCallComesTo(a, rows, result, rows')
    ensures result.AlreadyLinked? <==> LinkIsTaken(rows, v, a.user)
    ensures if result.AlreadyLinked? then rows' == rows else LinksRow(rows, rows', result.id, v, a.user)
  {
    forall i ensures IsRowOf(rows, i, v) <==> i in rows && rows[i].provider == a.provider && rows[i].subject == a.subject {
    }
    forall i ensures IsTriple(rows, i, a.provider, a.subject, a.user) <==> IsRowOf(rows, i, v) && rows[i].user == a.user {
    }
  }

  /** The challenge just created is confirmed if an attempt is allowed and it names a user. */
  lemma FreshChallengeConfirms(cfg: Config, v: Visit, purpose: string, user: string, id: Id, challenge: Id, code: Id, now: int,
                               db: Keyspace, created: Keyspace, reply: Reply, db': Keyspace)
    requires cfg.Valid()
    requires var record := ChallengeRecord(purpose, v.session.clientId, Some(user), Some(id), 0, cfg.challengeMaxAttempts, false);
             || created == SetEx(Del(db, SessionKey(v.sid)), ChallengeKey(challenge), ChallengeValue(record), cfg.challengeTtlSeconds, now)
             || created == Del(SetEx(db, ChallengeKey(challenge), ChallengeValue(record), cfg.challengeTtlSeconds, now), SessionKey(v.sid))
    requires ConfirmComesTo(cfg, challenge, v.session.redirectUri, code, now, created, reply, db')
    ensures CodeComesTo(cfg, v, purpose, user, id, challenge, code, now, db, reply, db')
  {
    assert TtlReply(created, ChallengeKey(challenge), now) == cfg.challengeTtlSeconds;
  }

  // ---------------------------------------------------------------- what deleting the session leads to

  lemma CloseEffect(b: Backend, hid: Id, r: Randoms, sid: Id, redirect: bool)
    requires b.Valid() && b.At(hid, CloseAndEnd(sid, redirect))
    ensures hid in b.w.handlers
    ensures Becomes(b.w, Moved(b.cfg, b.w, hid, r), hid, Finished, Del(b.w.db, SessionKey(sid)), b.w.rows,
                    b.w.hist.outputs + (if redirect then [(sid, ErrorOutput)] else []))
  {
    hide Moved;
    EffectCloseAndEnd(b.cfg, b.w, hid, r, sid, redirect);
  }

  lemma RegisterCloseEffect(b: Backend, hid: Id, r: Randoms, v: Visit, known: bool)
    requires b.Valid() && b.At(hid, RegisterClose(v, known))
    ensures hid in b.w.handlers
    ensures Becomes(b.w, Moved(b.cfg, b.w, hid, r), hid, if known then Finished else RegisterIssue(v), Del(b.w.db, SessionKey(v.sid)),
                    b.w.rows, b.w.hist.outputs + (if known then [(v.sid, ErrorOutput)] else []))
  {
    hide Moved;
    EffectRegisterClose(b.cfg, b.w, hid, r, v, known);
  }

  lemma ReturnCloseEffect(b: Backend, hid: Id, r: Randoms, v: Visit, challenge: Id)
    requires b.Valid() && b.At(hid, ReturnClose(v, challenge))
    ensures hid in b.w.handlers
    ensures Becomes(b.w, Moved(b.cfg, b.w, hid, r), hid, ConfirmGet(v, challenge), Del(b.w.db, SessionKey(v.sid)), b.w.rows,
                    b.w.hist.outputs + [])
  {
    hide Moved;
    EffectReturnClose(b.cfg, b.w, hid, r, v, challenge);
    assert b.w.hist.outputs + [] == b.w.hist.outputs;
  }

  lemma LinkCloseEffect(b: Backend, hid: Id, r: Randoms, v: Visit, result: LinkResult)
    requires b.Valid() && b.At(hid, LinkClose(v, result)) && v.session.linkKisUserId.Some? && v.session.purpose == "link"
    ensures hid in b.w.handlers
    ensures Becomes(b.w, Moved(b.cfg, b.w, hid, r), hid,
                    if result.AlreadyLinked? then Finished
                    else CreateChallenge(v, ChallengeRecord("link", v.session.clientId, v.session.linkKisUserId, Some(result.id), 0,
                                                            b.cfg.challengeMaxAttempts, false)),
                    Del(b.w.db, SessionKey(v.sid)), b.w.rows,
                    b.w.hist.outputs + (if result.AlreadyLinked? then [(v.sid, ErrorOutput)] else []))
  {
    hide Moved;
    EffectLinkClose(b.cfg, b.w, hid, r, v, result);
  }
}
