/** What holds in every reachable state of the protocol. Each predicate takes only the parts of
    the state it speaks about, so that a step disturbs only the predicates it has to. */
module ProtocolInvariant {
  import opened Wrappers
  import opened Records
  import opened RedisKeyspace
  import opened IdentityTable
  import opened TenantKey
  import opened Protocol
  import Requirements

  // ---------------------------------------------------------------- sessions

  predicate SlugOK(q: AuthorizeRequest) {
    q.partnerSlug.Some? ==> IsSlug(q.partnerSlug.value)
  }

  ghost predicate ApprovalsOK(approvals: map<Id, Approval>, steps: nat) {
    forall k :: k in approvals ==> approvals[k].at < steps && SlugOK(approvals[k].q) && approvals[k].q.clientState != ""
  }

  ghost predicate ClaimsOK(claims: map<Id, TicketClaim>, approvals: map<Id, Approval>, steps: nat) {
    forall k :: k in claims ==>
      k in approvals && approvals[k].q.ticket == Some(claims[k].ticket) && approvals[k].at < claims[k].at < steps
  }

  /** A session is what one approval allowed; a link session is bound to the claimed ticket's user. */
  ghost predicate SessionOK(r: SessionRecord, approvals: map<Id, Approval>, claims: map<Id, TicketClaim>) {
    && r.creator in approvals
    && (var a := approvals[r.creator];
        && a.at < r.at
        && r.base.clientId == a.q.clientId && r.base.redirectUri == a.q.redirectUri && r.base.purpose == a.q.purpose
        && r.base.clientState == a.q.clientState && r.base.partnerSlug == a.q.partnerSlug)
    && r.base.codeVerifier.None?
    && (if r.base.purpose == "link"
        then r.creator in claims && claims[r.creator].at < r.at && r.base.linkKisUserId == NonEmpty(claims[r.creator].ticket.kisUserId)
        else r.base.linkKisUserId.None?)
  }

  ghost predicate SessionsOK(sessions: map<Id, SessionRecord>, approvals: map<Id, Approval>, claims: map<Id, TicketClaim>, steps: nat) {
    forall k :: k in sessions ==> sessions[k].at < steps && SessionOK(sessions[k], approvals, claims)
  }

  /** A copy of session `sid`, in Redis or in a handler: the original, possibly with a verifier
      that a start on this same session drew. */
  ghost predicate CopyOf(sessions: map<Id, SessionRecord>, verifiers: map<Id, Id>, sid: Id, s: OAuthSession) {
    && sid in sessions && s.(codeVerifier := None) == sessions[sid].base
    && (s.codeVerifier.Some? ==> s.codeVerifier.value in verifiers && verifiers[s.codeVerifier.value] == sid)
  }

  // ---------------------------------------------------------------- callbacks

  ghost predicate LoginOK(l: Login, sessions: map<Id, SessionRecord>, verifiers: map<Id, Id>) {
    && l.who.sub != ""
    && l.sid in sessions && sessions[l.sid].at < l.at
    && RouteServes(l.route, sessions[l.sid].base) && l.nonce == sessions[l.sid].base.nonce
    && l.verifier in verifiers && verifiers[l.verifier] == l.sid
  }

  ghost predicate LoginsOK(logins: map<Id, Login>, sessions: map<Id, SessionRecord>, verifiers: map<Id, Id>, steps: nat) {
    forall k :: k in logins ==> logins[k].at < steps && LoginOK(logins[k], sessions, verifiers)
  }

  /** The provider and subject a login stands for. */
  predicate Stands(l: Login, provider: string, subject: string) {
    Requirements.KnownAs(l.route, l.who.sub, provider, subject)
  }

  predicate RowOfLogin(t: Table, id: Id, l: Login) {
    id in t && Stands(l, t[id].provider, t[id].subject)
  }

  ghost predicate UsesOK(uses: map<Id, Id>, logins: map<Id, Login>, rows: Table) {
    forall k :: k in uses ==> k in logins && RowOfLogin(rows, uses[k], logins[k])
  }

  ghost predicate LinkOK(o: LinkOutcome, rows: Table) {
    if o.result.Linked? then HoldsTriple(rows, o.result.id, o.args) else Conflicts(rows, o.args)
  }

  ghost predicate LinksOK(links: map<Id, LinkOutcome>, rows: Table) {
    forall k :: k in links ==> LinkOK(links[k], rows)
  }

  /** A row a callback inserted belongs to the user of the ticket behind its session. */
  ghost predicate OriginOK(id: Id, o: RowOrigin, logins: map<Id, Login>, sessions: map<Id, SessionRecord>, rows: Table) {
    && id in rows
    && (o.ByCallback? ==>
          && o.handler in logins
          && RowOfLogin(rows, id, logins[o.handler])
          && logins[o.handler].sid in sessions
          && sessions[logins[o.handler].sid].base.purpose == "link"
          && sessions[logins[o.handler].sid].base.linkKisUserId == Some(rows[id].user))
  }

  ghost predicate OriginsOK(origins: map<Id, RowOrigin>, logins: map<Id, Login>, sessions: map<Id, SessionRecord>, rows: Table) {
    forall k :: k in origins ==> OriginOK(k, origins[k], logins, sessions, rows)
  }

  /** The record a callback puts in its challenge: its session's purpose and client, and a row
      whose key is the verified identity and whose owner is the named user, for a link the
      user the ticket named. */
  ghost predicate RecordOK(cfg: Config, r: ChallengeRecord, hid: Id, logins: map<Id, Login>, sessions: map<Id, SessionRecord>,
                           uses: map<Id, Id>, rows: Table) {
    && hid in logins && logins[hid].sid in sessions
    && (var s := sessions[logins[hid].sid].base;
        && r.purpose == s.purpose && r.clientId == s.clientId && s.purpose != "registration"
        && (s.purpose == "link" ==> r.kisUserId == s.linkKisUserId))
    && r.kisUserId.Some? && r.kisUserId.value != "" && r.authIdentityId.Some?
    && (var id := r.authIdentityId.value;
        && RowOfLogin(rows, id, logins[hid]) && rows[id].user == r.kisUserId.value
        && hid in uses && uses[hid] == id)
    && r.attemptCount == 0 && !r.used && r.maxAttempts == cfg.challengeMaxAttempts
  }

  ghost predicate ChallengeOK(cfg: Config, i: ChallengeInfo, logins: map<Id, Login>, sessions: map<Id, SessionRecord>,
                              uses: map<Id, Id>, rows: Table) {
    RecordOK(cfg, i.record, i.owner, logins, sessions, uses, rows) && i.sid == logins[i.owner].sid && logins[i.owner].at < i.at
  }

  ghost predicate ChallengesOK(cfg: Config, challenges: map<Id, ChallengeInfo>, logins: map<Id, Login>,
                               sessions: map<Id, SessionRecord>, uses: map<Id, Id>, rows: Table, steps: nat) {
    forall k :: k in challenges ==> challenges[k].at < steps && ChallengeOK(cfg, challenges[k], logins, sessions, uses, rows)
  }

  ghost predicate CodeOK(i: CodeInfo, challenges: map<Id, ChallengeInfo>, sessions: map<Id, SessionRecord>) {
    && i.challenge in challenges
    && (var ch := challenges[i.challenge];
        && ch.owner == i.owner && ch.sid == i.sid && ch.at < i.at
        && i.payload.purpose == ch.record.purpose && i.payload.clientId == ch.record.clientId
        && Some(i.payload.kisUserId) == ch.record.kisUserId
        && Some(i.payload.authIdentityId) == ch.record.authIdentityId)
    && i.sid in sessions && i.payload.redirectUri == sessions[i.sid].base.redirectUri
  }

  ghost predicate CodesOK(codes: map<Id, CodeInfo>, challenges: map<Id, ChallengeInfo>, sessions: map<Id, SessionRecord>, steps: nat) {
    forall k :: k in codes ==> codes[k].at < steps && CodeOK(codes[k], challenges, sessions)
  }

  ghost predicate TicketOK(i: TicketInfo, logins: map<Id, Login>, sessions: map<Id, SessionRecord>) {
    && i.owner in logins
    && (var l := logins[i.owner];
        && l.sid == i.sid && l.at < i.at
        && Stands(l, i.payload.provider, i.payload.providerSubject)
        && i.payload.providerEmail == l.who.email && i.payload.providerEmailVerified == l.who.emailVerified
        && i.payload.purpose == (if l.route.Google? then "registration" else "enterprise_sso_registration")
        && i.payload.partnerSlug == (if l.route.Google? then None else Some(l.route.slug)))
    && i.sid in sessions
    && (var s := sessions[i.sid].base;
        s.purpose == "registration" && i.payload.clientId == s.clientId && i.payload.redirectUri == s.redirectUri)
  }

  ghost predicate TicketsOK(tickets: map<Id, TicketInfo>, logins: map<Id, Login>, sessions: map<Id, SessionRecord>, steps: nat) {
    forall k :: k in tickets ==> tickets[k].at < steps && TicketOK(tickets[k], logins, sessions)
  }

  // ---------------------------------------------------------------- exchanges

  ghost predicate TokenOK(t: Token, codes: map<Id, CodeInfo>, redeemed: map<Id, Id>,
                          tickets: map<Id, TicketInfo>, redeemedTickets: map<Id, Id>) {
    match t
    case AuthToken(code, minter, subject, audience, purpose, identity, redirectUri, _, _, foundAt, at) =>
      && code in redeemed && redeemed[code] == minter && code in codes
      && codes[code].payload == AuthorizationCodePayload(purpose, audience, subject, identity, redirectUri)
      && codes[code].at < foundAt < at
    case RegistrationToken(code, minter, audience, purpose, provider, subject, email, emailVerified, slug, redirectUri, at) =>
      && code in redeemedTickets && redeemedTickets[code] == minter && code in tickets
      && (var p := tickets[code].payload;
          && p.purpose == purpose && p.clientId == audience && p.provider == provider
          && p.providerSubject == subject && p.partnerSlug == slug && p.redirectUri == redirectUri
          && p.providerEmail == email && p.providerEmailVerified == emailVerified)
      && tickets[code].at < at
  }

  ghost predicate TokensOK(tokens: seq<Token>, codes: map<Id, CodeInfo>, redeemed: map<Id, Id>,
                           tickets: map<Id, TicketInfo>, redeemedTickets: map<Id, Id>) {
    forall t :: t in tokens ==> TokenOK(t, codes, redeemed, tickets, redeemedTickets)
  }

  /** What has been redeemed was issued, and is gone from Redis. */
  ghost predicate Spent(db: Keyspace, codes: map<Id, CodeInfo>, redeemed: map<Id, Id>,
                        tickets: map<Id, TicketInfo>, redeemedTickets: map<Id, Id>) {
    && (forall c {:trigger c in redeemed} {:trigger CodeKey(c)} :: c in redeemed ==> c in codes && CodeKey(c) !in db)
    && (forall t {:trigger t in redeemedTickets} {:trigger TicketKey(t)} :: t in redeemedTickets ==> t in tickets && TicketKey(t) !in db)
  }

  // ---------------------------------------------------------------- link tickets

  /** A claimed nonce is held until its ticket has expired. */
  ghost predicate NonceHeld(db: Keyspace, t: LinkTicket) {
    && LinkNonceKey(t.nonce) in db
    && db[LinkNonceKey(t.nonce)].expiresAt.Some?
    && db[LinkNonceKey(t.nonce)].expiresAt.value >= t.exp * 1000
  }

  ghost predicate ClaimsHeld(db: Keyspace, claims: map<Id, TicketClaim>) {
    forall k :: k in claims ==> NonceHeld(db, claims[k].ticket)
  }

  /** Of two claims of one nonce, one was made when the other's ticket had expired. */
  ghost predicate ClaimsApart(claims: map<Id, TicketClaim>) {
    forall a, b {:trigger claims[a], claims[b]} ::
      a in claims && b in claims && a != b && claims[a].ticket.nonce == claims[b].ticket.nonce ==>
        claims[a].setAt >= claims[b].ticket.exp * 1000 || claims[b].setAt >= claims[a].ticket.exp * 1000
  }

  // ---------------------------------------------------------------- the table, drawn ids, dates

  ghost predicate TableOK(rows: Table, origins: map<Id, RowOrigin>) {
    Unique(rows) && (forall i :: i in rows ==> rows[i].user != "") && origins.Keys == rows.Keys
  }

  ghost predicate DrawnOK(drawn: set<Id>, rows: Table, verifiers: map<Id, Id>, sessions: map<Id, SessionRecord>,
                          challenges: map<Id, ChallengeInfo>, codes: map<Id, CodeInfo>, tickets: map<Id, TicketInfo>) {
    && rows.Keys <= drawn && verifiers.Keys <= drawn && sessions.Keys <= drawn && challenges.Keys <= drawn
    && codes.Keys <= drawn && tickets.Keys <= drawn && codes.Keys !! tickets.Keys
  }

  // ---------------------------------------------------------------- Redis and the handlers

  ghost predicate EntryOK(h: History, k: Key, v: Value) {
    match k
    case SessionKey(sid) => v.SessionValue? && CopyOf(h.sessions, h.verifiers, sid, v.session)
    case ChallengeKey(ch) =>
      v.ChallengeValue? && ch in h.challenges && v.challenge.(used := false) == h.challenges[ch].record
    case CodeKey(c) => v.CodeValue? && c in h.codes && v.code == h.codes[c].payload
    case TicketKey(t) => v.TicketValue? && t in h.tickets && v.ticket == h.tickets[t].payload
    case LinkNonceKey(_) => true
    case RateKey(_, _) => true
  }

  ghost predicate EntriesOK(db: Keyspace, h: History) {
    forall k :: k in db ==> EntryOK(h, k, db[k].value)
  }

  ghost predicate VisitOK(h: History, hid: Id, v: Visit) {
    && CopyOf(h.sessions, h.verifiers, v.sid, v.session) && v.session.codeVerifier.Some?
    && hid in h.logins
    && h.logins[hid] == Login(v.sid, v.route, v.session.nonce, v.session.codeVerifier.value, v.who, h.logins[hid].at)
  }

  ghost predicate SourceOK(h: History, hid: Id, src: LinkSource, a: LinkArgs) {
    && a.user != ""
    && (src.FromCallback? ==>
          && VisitOK(h, hid, src.visit) && src.visit.session.purpose == "link"
          && src.visit.session.linkKisUserId.Some? && a == ArgsOf(src.visit))
  }

  /** This handler's challenge, created by itself for its own session. */
  ghost predicate OwnChallenge(h: History, hid: Id, v: Visit, ch: Id) {
    VisitOK(h, hid, v) && ch in h.challenges && h.challenges[ch].owner == hid && h.challenges[ch].sid == v.sid
  }

  ghost predicate RecordFits(cfg: Config, h: History, rows: Table, hid: Id, r: ChallengeRecord) {
    RecordOK(cfg, r, hid, h.logins, h.sessions, h.uses, rows)
  }

  /** What a handler knows at each program counter. */
  ghost predicate HandlerOK(cfg: Config, h: History, rows: Table, now: int, hid: Id, handler: Handler) {
    match handler
    case AuthorizeCheck(q) => hid in h.approvals && h.approvals[hid].q == q && q.purpose == "link"
    case AuthorizeClaim(q, t, readAt) =>
      && hid in h.approvals && h.approvals[hid].q == q && q.purpose == "link" && q.ticket == Some(t)
      && readAt * 1000 <= now && readAt < t.exp
    case AuthorizeSave(q, linkUser) =>
      && hid in h.approvals && h.approvals[hid].q == q
      && (if q.purpose == "link"
          then hid in h.claims && linkUser == NonEmpty(h.claims[hid].ticket.kisUserId)
          else linkUser.None?)
    case StartResolve(sid, s) => CopyOf(h.sessions, h.verifiers, sid, s)
    case StartTtl(sid, s) => CopyOf(h.sessions, h.verifiers, sid, s)
    case StartSave(sid, s, _) => CopyOf(h.sessions, h.verifiers, sid, s)
    case CallbackResolve(route, sid, s) =>
      CopyOf(h.sessions, h.verifiers, sid, s) && RouteServes(route, s) && s.codeVerifier.Some?
    case CallbackVerify(route, sid, s) =>
      CopyOf(h.sessions, h.verifiers, sid, s) && RouteServes(route, s) && s.codeVerifier.Some?
    case CloseAndEnd(sid, _) => sid in h.sessions
    case FindIdentity(v) => VisitOK(h, hid, v) && v.session.purpose != "link"
    case LinkSelect(src, a) => SourceOK(h, hid, src, a)
    case LinkUpdate(src, a, id) => SourceOK(h, hid, src, a) && HoldsTriple(rows, id, a)
    case LinkInsert(src, a) => SourceOK(h, hid, src, a)
    case LinkClose(v, r) =>
      && v.session.linkKisUserId.Some?
      && SourceOK(h, hid, FromCallback(v), ArgsOf(v))
      && (r.Linked? ==> HoldsTriple(rows, r.id, ArgsOf(v)) && hid in h.uses && h.uses[hid] == r.id)
    case RegisterClose(v, _) => VisitOK(h, hid, v) && v.session.purpose == "registration"
    case RegisterIssue(v) => VisitOK(h, hid, v) && v.session.purpose == "registration"
    case Touch(v, row, user) =>
      VisitOK(h, hid, v) && v.session.purpose != "link" && RecordFits(cfg, h, rows, hid, RecordFor(cfg, v, user, row))
    case CreateChallenge(v, r) => VisitOK(h, hid, v) && RecordFits(cfg, h, rows, hid, r)
    case ReturnClose(v, ch) => OwnChallenge(h, hid, v, ch)
    case ConfirmGet(v, ch) => OwnChallenge(h, hid, v, ch)
    case MarkGet(v, ch, r) => OwnChallenge(h, hid, v, ch) && r == h.challenges[ch].record
    case MarkTtl(v, ch, r, stored) => OwnChallenge(h, hid, v, ch) && r == h.challenges[ch].record && stored == r.(used := true)
    case MarkSave(v, ch, r, stored, _) => OwnChallenge(h, hid, v, ch) && r == h.challenges[ch].record && stored == r.(used := true)
    case IssueCode(v, ch, r) => OwnChallenge(h, hid, v, ch) && r == h.challenges[ch].record
    case ExchangeFind(code, p) =>
      code in h.redeemed && h.redeemed[code] == hid && code in h.codes && h.codes[code].payload == p
    case ExchangeSign(code, p, _, _, foundAt) =>
      && code in h.redeemed && h.redeemed[code] == hid && code in h.codes && h.codes[code].payload == p
      && h.codes[code].at < foundAt < h.steps
    case TicketSign(code, p) =>
      code in h.redeemedTickets && h.redeemedTickets[code] == hid && code in h.tickets && h.tickets[code].payload == p
    case _ => true
  }

  ghost predicate HandlersOK(cfg: Config, handlers: map<Id, Handler>, h: History, rows: Table, now: int) {
    forall hid :: hid in handlers ==> HandlerOK(cfg, h, rows, now, hid, handlers[hid])
  }

  ghost predicate Core(cfg: Config, w: World) {
    var h := w.hist;
    && cfg.Valid()
    && ApprovalsOK(h.approvals, h.steps)
    && ClaimsOK(h.claims, h.approvals, h.steps)
    && SessionsOK(h.sessions, h.approvals, h.claims, h.steps)
    && LoginsOK(h.logins, h.sessions, h.verifiers, h.steps)
    && UsesOK(h.uses, h.logins, w.rows)
    && LinksOK(h.links, w.rows)
    && OriginsOK(h.origins, h.logins, h.sessions, w.rows)
    && ChallengesOK(cfg, h.challenges, h.logins, h.sessions, h.uses, w.rows, h.steps)
    && CodesOK(h.codes, h.challenges, h.sessions, h.steps)
    && TicketsOK(h.tickets, h.logins, h.sessions, h.steps)
    && TokensOK(h.tokens, h.codes, h.redeemed, h.tickets, h.redeemedTickets)
    && Spent(w.db, h.codes, h.redeemed, h.tickets, h.redeemedTickets)
    && ClaimsHeld(w.db, h.claims)
    && ClaimsApart(h.claims)
    && TableOK(w.rows, h.origins)
    && DrawnOK(h.drawn, w.rows, h.verifiers, h.sessions, h.challenges, h.codes, h.tickets)
    && h.closed <= h.sessions.Keys
    && EntriesOK(w.db, h)
    && HandlersOK(cfg, w.handlers, h, w.rows, w.now)
  }

  // ---------------------------------------------------------------- what handlers have behind them

  /** Handler `hid` is at least at stage `stage` of its life. */
  predicate Reached(handlers: map<Id, Handler>, hid: Id, stage: nat) {
    hid in handlers && Stage(handlers[hid]) >= stage
  }

  /** Each event was recorded by a handler that has since moved past the step that records it. */
  ghost predicate Past(handlers: map<Id, Handler>, h: History) {
    && (forall k :: k in h.approvals ==> Reached(handlers, k, 1))
    && (forall k :: k in h.claims ==> Reached(handlers, k, 3))
    && (forall k :: k in h.sessions ==> Reached(handlers, h.sessions[k].creator, 14))
    && (forall k :: k in h.logins ==> Reached(handlers, k, 3))
    && (forall k :: k in h.uses ==> Reached(handlers, k, 5))
    && (forall k :: k in h.links ==> Reached(handlers, k, 5))
    && (forall k :: k in h.challenges ==> Reached(handlers, h.challenges[k].owner, 7))
    && (forall k :: k in h.codes ==> Reached(handlers, h.codes[k].owner, 14))
    && (forall k :: k in h.tickets ==> Reached(handlers, h.tickets[k].owner, 14))
    && (forall k :: k in h.redeemed ==> Reached(handlers, h.redeemed[k], 1))
    && (forall k :: k in h.redeemedTickets ==> Reached(handlers, h.redeemedTickets[k], 1))
    && (forall t :: t in h.tokens ==> Reached(handlers, t.minter, 14))
  }

  predicate IsUsed(db: Keyspace, ch: Id) {
    ChallengeKey(ch) in db && db[ChallengeKey(ch)].value.ChallengeValue? && db[ChallengeKey(ch)].value.challenge.used
  }

  /** Only a challenge's own handler marks it used, on its way to issuing the code. */
  ghost predicate UsedPast(handlers: map<Id, Handler>, db: Keyspace, challenges: map<Id, ChallengeInfo>) {
    forall ch :: ch in challenges && IsUsed(db, ch) ==> Reached(handlers, challenges[ch].owner, 12)
  }

  /** One session per authorize, one challenge, one code and one ticket per callback,
      one token per code and per ticket. */
  ghost predicate Singles(h: History) {
    && (forall a, b {:trigger h.sessions[a], h.sessions[b]} ::
          a in h.sessions && b in h.sessions && h.sessions[a].creator == h.sessions[b].creator ==> a == b)
    && (forall a, b {:trigger h.challenges[a], h.challenges[b]} ::
          a in h.challenges && b in h.challenges && h.challenges[a].owner == h.challenges[b].owner ==> a == b)
    && (forall a, b {:trigger h.codes[a], h.codes[b]} ::
          a in h.codes && b in h.codes && h.codes[a].owner == h.codes[b].owner ==> a == b)
    && (forall a, b {:trigger h.tickets[a], h.tickets[b]} ::
          a in h.tickets && b in h.tickets && h.tickets[a].owner == h.tickets[b].owner ==> a == b)
    && (forall i, j {:trigger h.tokens[i], h.tokens[j]} ::
          0 <= i < j < |h.tokens| && h.tokens[i].AuthToken? == h.tokens[j].AuthToken? ==>
            h.tokens[i].code != h.tokens[j].code)
  }

  ghost predicate Inv(cfg: Config, w: World) {
    Core(cfg, w) && Past(w.handlers, w.hist) && UsedPast(w.handlers, w.db, w.hist.challenges) && Singles(w.hist)
  }
}
