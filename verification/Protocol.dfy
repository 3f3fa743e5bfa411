/** The authorization protocol as interleaved steps.

    A request handler is a program counter with its local variables. One step is one command: the one
    the handler stands at, its reply, and the code up to the next. Where that code looks at the time,
    it does so in a step of its own. Between two steps anything else may happen: other handlers move or
    fail, the clock advances, the client registry and the status of identities change.

    `History` records what happened, and no step reads it to decide anything. */
module Protocol {
  import opened Wrappers
  import opened Records
  import opened RedisKeyspace
  import opened IdentityTable
  import opened Registry
  import opened TenantKey

  /** Times to live are at least a second: Redis refuses SET EX with less. */
  datatype Config = Config(challengeTtlSeconds: int, authCodeTtlSeconds: int, challengeMaxAttempts: int) {
    predicate Valid() {
      challengeTtlSeconds >= 1 && authCodeTtlSeconds >= 1
    }
  }

  // ---------------------------------------------------------------- requests and handlers

  /** Which callback family a request came in on. */
  datatype Route = Google | Enterprise(slug: string)

  /** What the identity provider vouched for. */
  datatype Verified = Verified(sub: string, email: Option<string>, emailVerified: bool)

  datatype LinkTicket = LinkTicket(kisUserId: string, nonce: string, exp: int)

  /** `ticket` is None when no well-formed, correctly signed link ticket came with the request. */
  datatype AuthorizeRequest = AuthorizeRequest(
    clientId: string,
    redirectUri: string,
    purpose: string,
    clientState: string,
    ticket: Option<LinkTicket>,
    partnerSlug: Option<string>)

  datatype CallbackRequest = CallbackRequest(hasCode: bool, state: Option<nat>, hasError: bool)

  /** A callback whose identity has been verified. */
  datatype Visit = Visit(route: Route, sid: Id, session: OAuthSession, who: Verified)

  datatype LinkSource = FromCallback(visit: Visit) | FromServer

  datatype Output = CodeOutput | TicketOutput | ErrorOutput

  datatype Handler =
    // GET /authorize
    | AuthorizeLookup(q: AuthorizeRequest)
    | AuthorizeCheck(q: AuthorizeRequest)
    | AuthorizeClaim(q: AuthorizeRequest, ticket: LinkTicket, readAt: int)
    | AuthorizeSave(q: AuthorizeRequest, linkUser: Option<string>)
    // GET /oauth/google/start and /oauth/enterprise/:slug/start
    | StartGet(route: Route, sid: Id)
    | StartResolve(sid: Id, session: OAuthSession)
    | StartTtl(sid: Id, session: OAuthSession)
    | StartSave(sid: Id, session: OAuthSession, ttl: int)
    // GET .../callback
    | CallbackGet(route: Route, sid: Id, callback: CallbackRequest)
    | CallbackResolve(route: Route, sid: Id, session: OAuthSession)
    | CallbackVerify(route: Route, sid: Id, session: OAuthSession)
    | CloseAndEnd(sid: Id, redirect: bool)
    | FindIdentity(visit: Visit)
    // IdentityService.link
    | LinkSelect(source: LinkSource, args: LinkArgs)
    | LinkUpdate(source: LinkSource, args: LinkArgs, row: Id)
    | LinkInsert(source: LinkSource, args: LinkArgs)
    // OAuthOutcomeService
    | LinkClose(visit: Visit, result: LinkResult)
    | RegisterClose(visit: Visit, known: bool)
    | RegisterIssue(visit: Visit)
    | Touch(visit: Visit, row: Id, user: string)
    | CreateChallenge(visit: Visit, record: ChallengeRecord)
    | ReturnClose(visit: Visit, challenge: Id)
    | ConfirmGet(visit: Visit, challenge: Id)
    | MarkGet(visit: Visit, challenge: Id, record: ChallengeRecord)
    | MarkTtl(visit: Visit, challenge: Id, record: ChallengeRecord, stored: ChallengeRecord)
    | MarkSave(visit: Visit, challenge: Id, record: ChallengeRecord, stored: ChallengeRecord, ttl: int)
    | IssueCode(visit: Visit, challenge: Id, record: ChallengeRecord)
    // POST /internal/v1/authorization/exchange and /registration/exchange
    | ExchangeConsume(code: Id, clientId: string, redirectUri: string)
    | ExchangeFind(code: Id, payload: AuthorizationCodePayload)
    | ExchangeSign(code: Id, payload: AuthorizationCodePayload, email: Option<string>, emailVerified: bool, foundAt: nat)
    | TicketConsume(code: Id, clientId: string, redirectUri: string)
    | TicketSign(code: Id, registration: RegistrationTicketPayload)
    | Finished

  /** How far along its life a handler is; every step of a handler raises it. */
  function Stage(h: Handler): nat {
    match h
    case AuthorizeLookup(_) | StartGet(_, _) | CallbackGet(_, _, _)
       | ExchangeConsume(_, _, _) | TicketConsume(_, _, _) => 0
    case AuthorizeCheck(_) | StartResolve(_, _) | CallbackResolve(_, _, _)
       | ExchangeFind(_, _) | TicketSign(_, _) => 1
    case AuthorizeClaim(_, _, _) | StartTtl(_, _) | CallbackVerify(_, _, _) | ExchangeSign(_, _, _, _, _) => 2
    case AuthorizeSave(_, _) | StartSave(_, _, _) | FindIdentity(_) | LinkSelect(_, _) => 3
    case LinkUpdate(_, _, _) | LinkInsert(_, _) => 4
    case LinkClose(_, _) | RegisterClose(_, _) | Touch(_, _, _) => 5
    case RegisterIssue(_) | CreateChallenge(_, _) => 6
    case ReturnClose(_, _) => 7
    case ConfirmGet(_, _) => 8
    case MarkGet(_, _, _) => 9
    case MarkTtl(_, _, _, _) => 10
    case MarkSave(_, _, _, _, _) => 11
    case IssueCode(_, _, _) => 12
    case CloseAndEnd(_, _) => 13
    case Finished => 14
  }

  // ---------------------------------------------------------------- history

  /** `at` is always the index of the step. */
  datatype Approval = Approval(q: AuthorizeRequest, at: nat)
  datatype TicketClaim = TicketClaim(ticket: LinkTicket, setAt: int, at: nat)
  datatype SessionRecord = SessionRecord(base: OAuthSession, creator: Id, at: nat)
  datatype Login = Login(sid: Id, route: Route, nonce: nat, verifier: Id, who: Verified, at: nat)
  datatype LinkOutcome = LinkOutcome(args: LinkArgs, result: LinkResult)
  datatype ChallengeInfo = ChallengeInfo(sid: Id, owner: Id, record: ChallengeRecord, at: nat)
  datatype CodeInfo = CodeInfo(payload: AuthorizationCodePayload, sid: Id, challenge: Id, owner: Id, at: nat)
  datatype TicketInfo = TicketInfo(payload: RegistrationTicketPayload, sid: Id, owner: Id, at: nat)

  datatype Token =
    | AuthToken(code: Id, minter: Id, subject: string, audience: string, purpose: string, identity: Id,
                redirectUri: string, email: Option<string>, emailVerified: bool, foundAt: nat, at: nat)
    | RegistrationToken(code: Id, minter: Id, audience: string, purpose: string, provider: string,
                        providerSubject: string, email: Option<string>, emailVerified: bool,
                        partnerSlug: Option<string>, redirectUri: string, at: nat)

  datatype RowOrigin = Preexisting | ByCallback(handler: Id) | ByServer

  /** Approvals, claims, logins, used rows and link outcomes are keyed by handler. */
  datatype History = History(
    steps: nat,
    drawn: set<Id>,
    approvals: map<Id, Approval>,
    claims: map<Id, TicketClaim>,
    sessions: map<Id, SessionRecord>,
    verifiers: map<Id, Id>,
    logins: map<Id, Login>,
    uses: map<Id, Id>,
    links: map<Id, LinkOutcome>,
    origins: map<Id, RowOrigin>,
    challenges: map<Id, ChallengeInfo>,
    codes: map<Id, CodeInfo>,
    tickets: map<Id, TicketInfo>,
    redeemed: map<Id, Id>,
    redeemedTickets: map<Id, Id>,
    tokens: seq<Token>,
    closed: set<Id>,
    outputs: seq<(Id, Output)>)

  datatype World = World(
    now: int,
    clients: Clients,
    rows: Table,
    db: Keyspace,
    handlers: map<Id, Handler>,
    hist: History)

  /** What a step draws from outside: a random id, the random state and nonce of a new session,
      whether a network call succeeded, and the identity it returned. */
  datatype Choice = Choice(draw: Id, state: nat, nonce: nat, ok: bool, who: Verified)

  /** `Fail`: a command of the handler failed, or its reply was lost, and it gives up. */
  datatype Action =
    | Elapse(milliseconds: nat)
    | ChangeClients(clients: Clients)
    | ChangeStatus(id: Id, status: Status)
    | Accept(hid: Id, entry: Handler)
    | Resume(hid: Id, choice: Choice)
    | Fail(hid: Id)

  // ---------------------------------------------------------------- names used by the steps

  function ProviderOf(route: Route): string {
    if route.Google? then GOOGLE_PROVIDER else OIDC_PROVIDER
  }

  function SubjectOf(route: Route, sub: string): string {
    match route
    case Google => sub
    case Enterprise(slug) => CompositeSubject(slug, sub)
  }

  /** The enterprise routes serve only sessions created for their own partner. */
  predicate RouteServes(route: Route, s: OAuthSession) {
    route.Enterprise? ==> s.partnerSlug == Some(route.slug)
  }

  function NonEmpty(s: string): Option<string> {
    if s == "" then None else Some(s)
  }

  function ArgsOf(v: Visit): LinkArgs
    requires v.session.linkKisUserId.Some?
  {
    LinkArgs(ProviderOf(v.route), SubjectOf(v.route, v.who.sub), v.session.linkKisUserId.value, v.who.email, v.who.emailVerified)
  }

  function RecordFor(cfg: Config, v: Visit, user: string, row: Id): ChallengeRecord {
    ChallengeRecord(v.session.purpose, v.session.clientId, Some(user), Some(row), 0, cfg.challengeMaxAttempts, false)
  }

  function TicketFor(v: Visit): RegistrationTicketPayload {
    RegistrationTicketPayload(
      v.session.clientId,
      if v.route.Google? then "registration" else "enterprise_sso_registration",
      ProviderOf(v.route), SubjectOf(v.route, v.who.sub), v.who.email, v.who.emailVerified,
      if v.route.Google? then None else Some(v.route.slug),
      v.session.redirectUri)
  }

  function PayloadFor(v: Visit, r: ChallengeRecord): AuthorizationCodePayload
    requires r.kisUserId.Some? && r.authIdentityId.Some?
  {
    AuthorizationCodePayload(r.purpose, r.clientId, r.kisUserId.value, r.authIdentityId.value, v.session.redirectUri)
  }

  /** The checks `confirmAndRedirect` makes on the challenge it reads back. */
  predicate Confirmable(r: ChallengeRecord) {
    && !r.used
    && r.kisUserId.Some? && r.kisUserId.value != ""
    && r.authIdentityId.Some?
    && r.attemptCount < r.maxAttempts
  }

  // ---------------------------------------------------------------- shapes of a step

  /** The index of the step being taken; `steps` counts it already. */
  function Index(w: World): nat {
    if w.hist.steps == 0 then 0 else w.hist.steps - 1
  }

  function Goto(w: World, hid: Id, h: Handler): World {
    w.(handlers := w.handlers[hid := h])
  }

  function End(w: World, hid: Id): World {
    Goto(w, hid, Finished)
  }

  function EndWith(w: World, hid: Id, sid: Id, o: Output): World {
    End(w.(hist := w.hist.(outputs := w.hist.outputs + [(sid, o)])), hid)
  }

  function Store(w: World, k: Key, v: Value, ttlSeconds: int): World {
    w.(db := SetEx(w.db, k, v, ttlSeconds, w.now))
  }

  /** Delete a browser session. */
  function Close(w: World, sid: Id): World {
    w.(db := Del(w.db, SessionKey(sid)), hist := w.hist.(closed := w.hist.closed + {sid}))
  }

  function ReadSession(w: World, sid: Id): Option<OAuthSession> {
    match Get(w.db, SessionKey(sid), w.now)
    case Some(SessionValue(s)) => Some(s)
    case _ => None
  }

  function ReadChallenge(w: World, ch: Id): Option<ChallengeRecord> {
    match Get(w.db, ChallengeKey(ch), w.now)
    case Some(ChallengeValue(r)) => Some(r)
    case _ => None
  }

  // ---------------------------------------------------------------- recording what happened

  function WithApproval(w: World, hid: Id, a: Approval): World {
    w.(hist := w.hist.(approvals := w.hist.approvals[hid := a]))
  }

  function WithClaim(w: World, hid: Id, c: TicketClaim): World {
    w.(hist := w.hist.(claims := w.hist.claims[hid := c]))
  }

  function WithSession(w: World, sid: Id, r: SessionRecord): World {
    w.(hist := w.hist.(sessions := w.hist.sessions[sid := r]))
  }

  function WithVerifier(w: World, v: Id, sid: Id): World {
    w.(hist := w.hist.(verifiers := w.hist.verifiers[v := sid]))
  }

  function WithLogin(w: World, hid: Id, l: Login): World {
    w.(hist := w.hist.(logins := w.hist.logins[hid := l]))
  }

  function WithUse(w: World, hid: Id, row: Id): World {
    w.(hist := w.hist.(uses := w.hist.uses[hid := row]))
  }

  function WithLink(w: World, hid: Id, o: LinkOutcome): World {
    w.(hist := w.hist.(links := w.hist.links[hid := o]))
  }

  function WithChallenge(w: World, ch: Id, i: ChallengeInfo): World {
    w.(hist := w.hist.(challenges := w.hist.challenges[ch := i]))
  }

  function WithCode(w: World, code: Id, i: CodeInfo): World {
    w.(hist := w.hist.(codes := w.hist.codes[code := i]))
  }

  function WithTicket(w: World, t: Id, i: TicketInfo): World {
    w.(hist := w.hist.(tickets := w.hist.tickets[t := i]))
  }

  function WithRedeemed(w: World, code: Id, hid: Id): World {
    w.(hist := w.hist.(redeemed := w.hist.redeemed[code := hid]))
  }

  function WithRedeemedTicket(w: World, t: Id, hid: Id): World {
    w.(hist := w.hist.(redeemedTickets := w.hist.redeemedTickets[t := hid]))
  }

  function WithToken(w: World, t: Token): World {
    w.(hist := w.hist.(tokens := w.hist.tokens + [t]))
  }

  function WithInsert(w: World, id: Id, a: LinkArgs, o: RowOrigin): World {
    w.(rows := Inserted(w.rows, id, a), hist := w.hist.(origins := w.hist.origins[id := o]))
  }

  // ---------------------------------------------------------------- GET /authorize

  /** SELECT the client and run every check. */
  function StepAuthorizeLookup(w: World, hid: Id, q: AuthorizeRequest): World {
    var approved := WithApproval(w, hid, Approval(q, Index(w)));
    if !Permits(w.clients, q.clientId, q.redirectUri, q.purpose) then End(w, hid)
    else if q.clientState == "" then End(w, hid)
    else if q.partnerSlug.Some? && !IsSlug(q.partnerSlug.value) then End(w, hid)
    else if q.purpose != "link" then Goto(approved, hid, AuthorizeSave(q, None))
    else Goto(approved, hid, AuthorizeCheck(q))
  }

  /** With the reply in hand, and the time now: has the link ticket expired? */
  function StepAuthorizeCheck(w: World, hid: Id, q: AuthorizeRequest): World {
    if q.ticket.None? || q.ticket.value.exp <= w.now / 1000 then End(w, hid)
    else Goto(w, hid, AuthorizeClaim(q, q.ticket.value, w.now / 1000))
  }

  /** SET NX on the ticket's nonce. */
  function StepAuthorizeClaim(w: World, hid: Id, q: AuthorizeRequest, t: LinkTicket, readAt: int): World {
    if Live(w.db, LinkNonceKey(t.nonce), w.now) then End(w, hid)
    else
      var remaining := if t.exp - readAt > 1 then t.exp - readAt else 1;
      var stored := Store(w, LinkNonceKey(t.nonce), Claimed, remaining);
      Goto(WithClaim(stored, hid, TicketClaim(t, w.now, Index(w))), hid, AuthorizeSave(q, NonEmpty(t.kisUserId)))
  }

  function NewSession(q: AuthorizeRequest, linkUser: Option<string>, c: Choice): OAuthSession {
    OAuthSession(q.clientId, q.redirectUri, q.purpose, c.state, c.nonce, q.clientState, None, linkUser, q.partnerSlug)
  }

  function StepAuthorizeSave(w: World, hid: Id, q: AuthorizeRequest, linkUser: Option<string>, c: Choice): World {
    var s := NewSession(q, linkUser, c);
    End(Store(WithSession(w, c.draw, SessionRecord(s, hid, Index(w))), SessionKey(c.draw), SessionValue(s), SESSION_TTL_SECONDS), hid)
  }

  // ---------------------------------------------------------------- start

  function StepWithVerifier(w: World, sid: Id, s: OAuthSession, hid: Id, c: Choice): World {
    Goto(WithVerifier(w, c.draw, sid), hid, StartTtl(sid, s.(codeVerifier := Some(c.draw))))
  }

  function StepStartGet(w: World, hid: Id, route: Route, sid: Id, c: Choice): World {
    match ReadSession(w, sid)
    case None => End(w, hid)
    case Some(s) =>
      if !RouteServes(route, s) then End(w, hid)
      else if route.Enterprise? then Goto(w, hid, StartResolve(sid, s))
      else StepWithVerifier(w, sid, s, hid, c)
  }

  /** Tenant configuration and discovery document; a failure closes the session. */
  function StepStartResolve(w: World, hid: Id, sid: Id, s: OAuthSession, c: Choice): World {
    if c.ok then StepWithVerifier(w, sid, s, hid, c) else Goto(w, hid, CloseAndEnd(sid, false))
  }

  function StepStartTtl(w: World, hid: Id, sid: Id, s: OAuthSession): World {
    Goto(w, hid, StartSave(sid, s, TtlReply(w.db, SessionKey(sid), w.now)))
  }

  /** Writes the session back, even if it was deleted since it was read. */
  function StepStartSave(w: World, hid: Id, sid: Id, s: OAuthSession, ttl: int): World {
    End(Store(w, SessionKey(sid), SessionValue(s), if ttl > 0 then ttl else SESSION_TTL_SECONDS), hid)
  }

  // ---------------------------------------------------------------- callback

  function StepCallbackGet(w: World, hid: Id, route: Route, sid: Id, cb: CallbackRequest): World {
    match ReadSession(w, sid)
    case None => End(w, hid)
    case Some(s) =>
      if !RouteServes(route, s) || cb.state != Some(s.state) then End(w, hid)
      else if cb.hasError then Goto(w, hid, CloseAndEnd(sid, true))
      else if !cb.hasCode || s.codeVerifier.None? then End(w, hid)
      else if route.Enterprise? then Goto(w, hid, CallbackResolve(route, sid, s))
      else Goto(w, hid, CallbackVerify(route, sid, s))
  }

  function StepCallbackResolve(w: World, hid: Id, route: Route, sid: Id, s: OAuthSession, c: Choice): World {
    if c.ok then Goto(w, hid, CallbackVerify(route, sid, s)) else Goto(w, hid, CloseAndEnd(sid, false))
  }

  /** Token exchange with the stored PKCE verifier, then ID-token verification against the stored nonce. */
  function StepCallbackVerify(w: World, hid: Id, route: Route, sid: Id, s: OAuthSession, c: Choice): World {
    if !c.ok || c.who.sub == "" || s.codeVerifier.None? then Goto(w, hid, CloseAndEnd(sid, true))
    else
      var v := Visit(route, sid, s, c.who);
      var login := Login(sid, route, s.nonce, s.codeVerifier.value, c.who, Index(w));
      var seen := WithLogin(w, hid, login);
      if s.purpose != "link" then Goto(seen, hid, FindIdentity(v))
      else if s.linkKisUserId.None? then Goto(seen, hid, CloseAndEnd(sid, false))
      else Goto(seen, hid, LinkSelect(FromCallback(v), ArgsOf(v)))
  }

  /** DEL the session, then the error redirect or the generic error. */
  function StepCloseAndEnd(w: World, hid: Id, sid: Id, redirect: bool): World {
    if redirect then EndWith(Close(w, sid), hid, sid, ErrorOutput) else End(Close(w, sid), hid)
  }

  ghost function StepFindIdentity(w: World, hid: Id, v: Visit): World {
    match FindByKey(w.rows, ProviderOf(v.route), SubjectOf(v.route, v.who.sub))
    case None =>
      if v.session.purpose == "registration" then Goto(w, hid, RegisterClose(v, false))
      else Goto(w, hid, CloseAndEnd(v.sid, true))
    case Some(id) =>
      if v.session.purpose == "registration" then Goto(WithUse(w, hid, id), hid, RegisterClose(v, true))
      else Goto(WithUse(w, hid, id), hid, Touch(v, id, w.rows[id].user))
  }

  // ---------------------------------------------------------------- IdentityService.link

  /** The answer of `link` goes back to its caller. */
  function Answer(w: World, hid: Id, src: LinkSource, a: LinkArgs, r: LinkResult): World {
    var told := WithLink(w, hid, LinkOutcome(a, r));
    match src
    case FromCallback(v) => Goto(if r.Linked? then WithUse(told, hid, r.id) else told, hid, LinkClose(v, r))
    case FromServer => End(told, hid)
  }

  ghost function StepLinkSelect(w: World, hid: Id, src: LinkSource, a: LinkArgs): World {
    match FindByKey(w.rows, a.provider, a.subject)
    case None => Goto(w, hid, LinkInsert(src, a))
    case Some(id) =>
      if w.rows[id].user != a.user then Answer(w, hid, src, a, AlreadyLinked)
      else Goto(w, hid, LinkUpdate(src, a, id))
  }

  function StepLinkUpdate(w: World, hid: Id, src: LinkSource, a: LinkArgs, id: Id): World {
    if id !in w.rows then End(w, hid)
    else Answer(w.(rows := Refreshed(w.rows, id, a)), hid, src, a, Linked(id))
  }

  ghost function StepLinkInsert(w: World, hid: Id, src: LinkSource, a: LinkArgs, c: Choice): World {
    if Conflicts(w.rows, a) then Answer(w, hid, src, a, AlreadyLinked)
    else
      var origin := if src.FromServer? then ByServer else ByCallback(hid);
      Answer(WithInsert(w, c.draw, a, origin), hid, src, a, Linked(c.draw))
  }

  // ---------------------------------------------------------------- OAuthOutcomeService

  function StepLinkClose(cfg: Config, w: World, hid: Id, v: Visit, r: LinkResult): World {
    match r
    case AlreadyLinked => EndWith(Close(w, v.sid), hid, v.sid, ErrorOutput)
    case Linked(id) =>
      if v.session.linkKisUserId.None? then End(Close(w, v.sid), hid)
      else Goto(Close(w, v.sid), hid, CreateChallenge(v, RecordFor(cfg, v, v.session.linkKisUserId.value, id)))
  }

  function StepRegisterClose(w: World, hid: Id, v: Visit, known: bool): World {
    if known then EndWith(Close(w, v.sid), hid, v.sid, ErrorOutput)
    else Goto(Close(w, v.sid), hid, RegisterIssue(v))
  }

  function StepRegisterIssue(cfg: Config, w: World, hid: Id, v: Visit, c: Choice): World {
    var issued := WithTicket(w, c.draw, TicketInfo(TicketFor(v), v.sid, hid, Index(w)));
    EndWith(Store(issued, TicketKey(c.draw), TicketValue(TicketFor(v)), cfg.authCodeTtlSeconds), hid, v.sid, TicketOutput)
  }

  /** UPDATE last_authenticated_at, a column nothing here reads. */
  function StepTouch(cfg: Config, w: World, hid: Id, v: Visit, row: Id, user: string): World {
    Goto(w, hid, CreateChallenge(v, RecordFor(cfg, v, user, row)))
  }

  /** A link has deleted its session already; a returning user's is deleted next. */
  function StepCreateChallenge(cfg: Config, w: World, hid: Id, v: Visit, r: ChallengeRecord, c: Choice): World {
    var created := WithChallenge(w, c.draw, ChallengeInfo(v.sid, hid, r, Index(w)));
    Goto(Store(created, ChallengeKey(c.draw), ChallengeValue(r), cfg.challengeTtlSeconds), hid,
         if v.session.purpose == "link" then ConfirmGet(v, c.draw) else ReturnClose(v, c.draw))
  }

  function StepReturnClose(w: World, hid: Id, v: Visit, ch: Id): World {
    Goto(Close(w, v.sid), hid, ConfirmGet(v, ch))
  }

  function StepConfirmGet(w: World, hid: Id, v: Visit, ch: Id): World {
    match ReadChallenge(w, ch)
    case None => End(w, hid)
    case Some(r) => if Confirmable(r) then Goto(w, hid, MarkGet(v, ch, r)) else End(w, hid)
  }

  /** `markChallengeUsed`: GET, TTL and SET, giving up silently if the challenge has gone. */
  function StepMarkGet(w: World, hid: Id, v: Visit, ch: Id, r: ChallengeRecord): World {
    match ReadChallenge(w, ch)
    case None => Goto(w, hid, IssueCode(v, ch, r))
    case Some(stored) => Goto(w, hid, MarkTtl(v, ch, r, stored.(used := true)))
  }

  function StepMarkTtl(w: World, hid: Id, v: Visit, ch: Id, r: ChallengeRecord, stored: ChallengeRecord): World {
    var ttl := TtlReply(w.db, ChallengeKey(ch), w.now);
    Goto(w, hid, if ttl <= 0 then IssueCode(v, ch, r) else MarkSave(v, ch, r, stored, ttl))
  }

  function StepMarkSave(w: World, hid: Id, v: Visit, ch: Id, r: ChallengeRecord, stored: ChallengeRecord, ttl: int): World {
    Goto(Store(w, ChallengeKey(ch), ChallengeValue(stored), ttl), hid, IssueCode(v, ch, r))
  }

  function StepIssueCode(cfg: Config, w: World, hid: Id, v: Visit, ch: Id, r: ChallengeRecord, c: Choice): World {
    if r.kisUserId.None? || r.authIdentityId.None? then End(w, hid)
    else
      var p := PayloadFor(v, r);
      var issued := WithCode(w, c.draw, CodeInfo(p, v.sid, ch, hid, Index(w)));
      EndWith(Store(issued, CodeKey(c.draw), CodeValue(p), cfg.authCodeTtlSeconds), hid, v.sid, CodeOutput)
  }

  // ---------------------------------------------------------------- server-to-server exchange

  function StepExchangeConsume(w: World, hid: Id, code: Id, clientId: string, redirectUri: string): World {
    if clientId == "" || redirectUri == "" then End(w, hid)
    else
      match Get(w.db, CodeKey(code), w.now)
      case Some(CodeValue(p)) =>
        var spent := WithRedeemed(w.(db := Consumed(w.db, CodeKey(code), w.now)), code, hid);
        if p.clientId != clientId || p.redirectUri != redirectUri then End(spent, hid)
        else Goto(spent, hid, ExchangeFind(code, p))
      case _ => End(w, hid)
  }

  function StepExchangeFind(w: World, hid: Id, code: Id, p: AuthorizationCodePayload): World {
    if p.authIdentityId !in w.rows then End(w, hid)
    else
      var row := w.rows[p.authIdentityId];
      if row.status != Active || row.user != p.kisUserId then End(w, hid)
      else Goto(w, hid, ExchangeSign(code, p, row.email, row.emailVerified, Index(w)))
  }

  function StepExchangeSign(w: World, hid: Id, code: Id, p: AuthorizationCodePayload, email: Option<string>,
                            emailVerified: bool, foundAt: nat): World {
    var t := AuthToken(code, hid, p.kisUserId, p.clientId, p.purpose, p.authIdentityId, p.redirectUri, email, emailVerified, foundAt, Index(w));
    End(WithToken(w, t), hid)
  }

  function StepTicketConsume(w: World, hid: Id, code: Id, clientId: string, redirectUri: string): World {
    if clientId == "" || redirectUri == "" then End(w, hid)
    else
      match Get(w.db, TicketKey(code), w.now)
      case Some(TicketValue(p)) =>
        var spent := WithRedeemedTicket(w.(db := Consumed(w.db, TicketKey(code), w.now)), code, hid);
        if p.clientId != clientId || p.redirectUri != redirectUri then End(spent, hid)
        else Goto(spent, hid, TicketSign(code, p))
      case _ => End(w, hid)
  }

  function StepTicketSign(w: World, hid: Id, code: Id, p: RegistrationTicketPayload): World {
    var t := RegistrationToken(code, hid, p.clientId, p.purpose, p.provider, p.providerSubject, p.providerEmail, p.providerEmailVerified,
                               p.partnerSlug, p.redirectUri, Index(w));
    End(WithToken(w, t), hid)
  }

  // ---------------------------------------------------------------- steps and runs

  ghost function StepHandler(cfg: Config, w: World, hid: Id, c: Choice): World
    requires hid in w.handlers
  {
    match w.handlers[hid]
    case AuthorizeLookup(q) => StepAuthorizeLookup(w, hid, q)
    case AuthorizeCheck(q) => StepAuthorizeCheck(w, hid, q)
    case AuthorizeClaim(q, t, readAt) => StepAuthorizeClaim(w, hid, q, t, readAt)
    case AuthorizeSave(q, linkUser) => StepAuthorizeSave(w, hid, q, linkUser, c)
    case StartGet(route, sid) => StepStartGet(w, hid, route, sid, c)
    case StartResolve(sid, s) => StepStartResolve(w, hid, sid, s, c)
    case StartTtl(sid, s) => StepStartTtl(w, hid, sid, s)
    case StartSave(sid, s, ttl) => StepStartSave(w, hid, sid, s, ttl)
    case CallbackGet(route, sid, cb) => StepCallbackGet(w, hid, route, sid, cb)
    case CallbackResolve(route, sid, s) => StepCallbackResolve(w, hid, route, sid, s, c)
    case CallbackVerify(route, sid, s) => StepCallbackVerify(w, hid, route, sid, s, c)
    case CloseAndEnd(sid, redirect) => StepCloseAndEnd(w, hid, sid, redirect)
    case FindIdentity(v) => StepFindIdentity(w, hid, v)
    case LinkSelect(src, a) => StepLinkSelect(w, hid, src, a)
    case LinkUpdate(src, a, id) => StepLinkUpdate(w, hid, src, a, id)
    case LinkInsert(src, a) => StepLinkInsert(w, hid, src, a, c)
    case LinkClose(v, r) => StepLinkClose(cfg, w, hid, v, r)
    case RegisterClose(v, known) => StepRegisterClose(w, hid, v, known)
    case RegisterIssue(v) => StepRegisterIssue(cfg, w, hid, v, c)
    case Touch(v, row, user) => StepTouch(cfg, w, hid, v, row, user)
    case CreateChallenge(v, r) => StepCreateChallenge(cfg, w, hid, v, r, c)
    case ReturnClose(v, ch) => StepReturnClose(w, hid, v, ch)
    case ConfirmGet(v, ch) => StepConfirmGet(w, hid, v, ch)
    case MarkGet(v, ch, r) => StepMarkGet(w, hid, v, ch, r)
    case MarkTtl(v, ch, r, stored) => StepMarkTtl(w, hid, v, ch, r, stored)
    case MarkSave(v, ch, r, stored, ttl) => StepMarkSave(w, hid, v, ch, r, stored, ttl)
    case IssueCode(v, ch, r) => StepIssueCode(cfg, w, hid, v, ch, r, c)
    case ExchangeConsume(code, clientId, redirectUri) => StepExchangeConsume(w, hid, code, clientId, redirectUri)
    case ExchangeFind(code, p) => StepExchangeFind(w, hid, code, p)
    case ExchangeSign(code, p, email, emailVerified, foundAt) => StepExchangeSign(w, hid, code, p, email, emailVerified, foundAt)
    case TicketConsume(code, clientId, redirectUri) => StepTicketConsume(w, hid, code, clientId, redirectUri)
    case TicketSign(code, p) => StepTicketSign(w, hid, code, p)
    case Finished => w
  }

  /** Where a request enters: past the rate limiter and, for internal routes, the signature check. */
  predicate IsEntry(h: Handler) {
    || h.AuthorizeLookup? || h.StartGet? || h.CallbackGet? || h.ExchangeConsume? || h.TicketConsume?
    || (h.LinkSelect? && h.source.FromServer? && h.args.provider != "" && h.args.subject != "" && h.args.user != "")
  }

  ghost predicate Enabled(w: World, a: Action) {
    match a
    case Elapse(_) => true
    case ChangeClients(_) => true
    case ChangeStatus(id, _) => id in w.rows
    case Accept(hid, h) => hid !in w.handlers && IsEntry(h)
    case Resume(hid, c) => hid in w.handlers && !w.handlers[hid].Finished? && c.draw !in w.hist.drawn
    case Fail(hid) => hid in w.handlers && !w.handlers[hid].Finished?
  }

  function Ticked(w: World): World {
    w.(hist := w.hist.(steps := w.hist.steps + 1))
  }

  function Drawn(w: World, c: Choice): World {
    w.(hist := w.hist.(drawn := w.hist.drawn + {c.draw}))
  }

  ghost function Next(cfg: Config, w: World, a: Action): World
    requires Enabled(w, a)
  {
    var t := Ticked(w);
    match a
    case Elapse(ms) => t.(now := t.now + ms)
    case ChangeClients(cs) => t.(clients := cs)
    case ChangeStatus(id, s) => t.(rows := t.rows[id := t.rows[id].(status := s)])
    case Accept(hid, h) => Goto(t, hid, h)
    case Resume(hid, c) => StepHandler(cfg, Drawn(t, c), hid, c)
    case Fail(hid) => End(t, hid)
  }

  /** Nothing in Redis, nobody in flight, and a table whose rows meet the constraints. */
  ghost predicate Initial(w: World) {
    && w.db == map[] && w.handlers == map[]
    && Unique(w.rows) && (forall i :: i in w.rows ==> w.rows[i].user != "")
    && w.hist == History(0, w.rows.Keys, map[], map[], map[], map[], map[], map[], map[],
                         map i | i in w.rows :: Preexisting, map[], map[], map[], map[], map[], [], {}, [])
  }

  /** `run[i + 1]` follows `run[i]` by action `acts[i]`. */
  ghost predicate IsRun(cfg: Config, run: seq<World>, acts: seq<Action>) {
    && cfg.Valid()
    && |run| == |acts| + 1
    && Initial(run[0])
    && forall i {:trigger acts[i]} :: 0 <= i < |acts| ==> Enabled(run[i], acts[i]) && run[i + 1] == Next(cfg, run[i], acts[i])
  }
}
