/** Every step of the protocol keeps the core invariant. Each lemma follows one step function:
    the same branches, each a composition of the changes of module ProtocolChanges. */
module ProtocolSteps {
  import opened Wrappers
  import opened Records
  import opened RedisKeyspace
  import opened IdentityTable
  import opened Registry
  import opened TenantKey
  import opened Protocol
  import opened ProtocolInvariant
  import opened ProtocolChanges

  /** `w` is `v` at the start of a step of handler `hid`: one more step counted, one id drawn. */
  ghost predicate Begun(cfg: Config, v: World, w: World, hid: Id, c: Choice) {
    && Core(cfg, v) && Core(cfg, w) && w == Drawn(Ticked(v), c) && c.draw !in v.hist.drawn
    && hid in v.handlers && HandlerOK(cfg, w.hist, w.rows, w.now, hid, v.handlers[hid])
  }

  /** What a session read from Redis is. */
  lemma SessionReadIs(cfg: Config, w: World, sid: Id)
    requires Core(cfg, w) && ReadSession(w, sid).Some?
    ensures CopyOf(w.hist.sessions, w.hist.verifiers, sid, ReadSession(w, sid).value)
  {
    hide HandlersOK, CopyOf;
  }

  lemma StepsAuthorizeLookup(cfg: Config, v: World, w: World, hid: Id, c: Choice, q: AuthorizeRequest)
    requires Begun(cfg, v, w, hid, c) && v.handlers[hid] == AuthorizeLookup(q) && hid !in v.hist.approvals
    ensures Core(cfg, StepAuthorizeLookup(w, hid, q))
  {
    hide Core;
    var a := Approval(q, Index(w));
    var w1 := WithApproval(w, hid, a);
    if Permits(w.clients, q.clientId, q.redirectUri, q.purpose) && q.clientState != "" && SlugOK(q) {
      KeepApproval(cfg, w, hid, a);
      if q.purpose != "link" {
        KeepMove(cfg, w1, hid, AuthorizeSave(q, None));
      } else {
        KeepMove(cfg, w1, hid, AuthorizeCheck(q));
      }
    } else {
      KeepMove(cfg, w, hid, Finished);
    }
  }

  lemma StepsAuthorizeCheck(cfg: Config, v: World, w: World, hid: Id, c: Choice, q: AuthorizeRequest)
    requires Begun(cfg, v, w, hid, c) && v.handlers[hid] == AuthorizeCheck(q)
    ensures Core(cfg, StepAuthorizeCheck(w, hid, q))
  {
    hide Core;
    if q.ticket.Some? && q.ticket.value.exp > w.now / 1000 {
      KeepMove(cfg, w, hid, AuthorizeClaim(q, q.ticket.value, w.now / 1000));
    } else {
      KeepMove(cfg, w, hid, Finished);
    }
  }

  /** The random id of a step has never been used. */
  lemma DrawIsNew(cfg: Config, v: World, w: World, hid: Id, c: Choice)
    requires Begun(cfg, v, w, hid, c)
    ensures c.draw in w.hist.drawn && c.draw !in w.hist.sessions && c.draw !in w.hist.verifiers
    ensures c.draw !in w.hist.challenges && c.draw !in w.hist.codes && c.draw !in w.hist.tickets && c.draw !in w.rows
    ensures c.draw !in w.hist.redeemed && c.draw !in w.hist.redeemedTickets
  {
    hide HandlerOK, HandlersOK, EntriesOK, TokensOK;
  }

  lemma StepsAuthorizeClaim(cfg: Config, v: World, w: World, hid: Id, c: Choice, q: AuthorizeRequest, t: LinkTicket, readAt: int)
    requires Begun(cfg, v, w, hid, c) && v.handlers[hid] == AuthorizeClaim(q, t, readAt) && hid !in v.hist.claims
    ensures Core(cfg, StepAuthorizeClaim(w, hid, q, t, readAt))
  {
    hide Core, Store, NonceHeld, WithClaim, ClaimedOnce, Live;
    if Live(w.db, LinkNonceKey(t.nonce), w.now) {
      KeepMove(cfg, w, hid, Finished);
    } else {
      ClaimIsLate(cfg, v, w, hid, c, t);
      var remaining := if t.exp - readAt > 1 then t.exp - readAt else 1;
      StoredNonceIsHeld(w, t, readAt);
      ClaimNonce(cfg, w, hid, t, remaining);
      ClaimedIsKnown(cfg, w, hid, q, t, remaining);
      KeepMove(cfg, ClaimedOnce(w, hid, t, remaining), hid, AuthorizeSave(q, NonEmpty(t.kisUserId)));
      ClaimedOnceIs(w, hid, t, remaining);
    }
  }

  /** The nonce stored and the claim recorded. */
  function ClaimedOnce(w: World, hid: Id, t: LinkTicket, ttlSeconds: int): World {
    WithClaim(Store(w, LinkNonceKey(t.nonce), Claimed, ttlSeconds), hid, TicketClaim(t, w.now, Index(w)))
  }

  lemma ClaimedOnceIs(w: World, hid: Id, t: LinkTicket, ttlSeconds: int)
    ensures ClaimedOnce(w, hid, t, ttlSeconds)
            == WithClaim(Store(w, LinkNonceKey(t.nonce), Claimed, ttlSeconds), hid, TicketClaim(t, w.now, Index(w)))
  {
  }

  lemma ClaimedIsKnown(cfg: Config, w: World, hid: Id, q: AuthorizeRequest, t: LinkTicket, ttlSeconds: int)
    requires hid in w.hist.approvals && w.hist.approvals[hid].q == q && q.purpose == "link"
    ensures var w1 := ClaimedOnce(w, hid, t, ttlSeconds);
            HandlerOK(cfg, w1.hist, w1.rows, w1.now, hid, AuthorizeSave(q, NonEmpty(t.kisUserId)))
  {
  }

  lemma ClaimNonce(cfg: Config, w: World, hid: Id, t: LinkTicket, ttlSeconds: int)
    requires Core(cfg, w) && !Live(w.db, LinkNonceKey(t.nonce), w.now) && ttlSeconds >= 1
    requires NonceHeld(Store(w, LinkNonceKey(t.nonce), Claimed, ttlSeconds).db, t)
    requires hid !in w.hist.claims && hid in w.hist.approvals && w.hist.approvals[hid].q.ticket == Some(t)
    requires w.hist.approvals[hid].at < Index(w) < w.hist.steps
    requires forall k :: k in w.hist.claims && w.hist.claims[k].ticket.nonce == t.nonce ==> w.now >= w.hist.claims[k].ticket.exp * 1000
    ensures Core(cfg, ClaimedOnce(w, hid, t, ttlSeconds))
  {
    hide Core, NonceHeld;
    KeepNonce(cfg, w, t.nonce, ttlSeconds);
    KeepClaim(cfg, Store(w, LinkNonceKey(t.nonce), Claimed, ttlSeconds), hid, TicketClaim(t, w.now, Index(w)));
  }

  lemma StoredNonceIsHeld(w: World, t: LinkTicket, readAt: int)
    requires readAt * 1000 <= w.now && readAt < t.exp
    ensures NonceHeld(Store(w, LinkNonceKey(t.nonce), Claimed, if t.exp - readAt > 1 then t.exp - readAt else 1).db, t)
  {
  }

  /** A nonce that is free now has only been claimed by tickets that have expired. */
  lemma ClaimIsLate(cfg: Config, v: World, w: World, hid: Id, c: Choice, t: LinkTicket)
    requires Begun(cfg, v, w, hid, c) && !Live(w.db, LinkNonceKey(t.nonce), w.now)
    ensures forall k :: k in w.hist.claims && w.hist.claims[k].ticket.nonce == t.nonce ==> w.now >= w.hist.claims[k].ticket.exp * 1000
    ensures hid in w.hist.approvals ==> w.hist.approvals[hid].at < Index(w)
  {
    hide HandlerOK, HandlersOK, EntriesOK, TokensOK, LoginsOK, SessionsOK, OriginsOK, ChallengesOK, CodesOK, TicketsOK, UsesOK;
  }

  lemma StepsAuthorizeSave(cfg: Config, v: World, w: World, hid: Id, c: Choice, q: AuthorizeRequest, linkUser: Option<string>)
    requires Begun(cfg, v, w, hid, c) && v.handlers[hid] == AuthorizeSave(q, linkUser)
    ensures Core(cfg, StepAuthorizeSave(w, hid, q, linkUser, c))
  {
    var s := NewSession(q, linkUser, c);
    var r := SessionRecord(s, hid, Index(w));
    hide Core, SlugOK;
    DrawIsNew(cfg, v, w, hid, c);
    ApprovedEarlier(cfg, v, w, hid, c);
    KeepSession(cfg, w, c.draw, r);
    var w1 := WithSession(w, c.draw, r);
    KeepStore(cfg, w1, SessionKey(c.draw), SessionValue(s), SESSION_TTL_SECONDS);
    KeepMove(cfg, Store(w1, SessionKey(c.draw), SessionValue(s), SESSION_TTL_SECONDS), hid, Finished);
  }

  lemma ApprovedEarlier(cfg: Config, v: World, w: World, hid: Id, c: Choice)
    requires Begun(cfg, v, w, hid, c)
    ensures hid in w.hist.approvals ==> w.hist.approvals[hid].at < Index(w)
    ensures hid in w.hist.claims ==> w.hist.claims[hid].at < Index(w)
  {
    hide HandlerOK, HandlersOK, EntriesOK, TokensOK, LoginsOK, SessionsOK, OriginsOK, ChallengesOK, CodesOK, TicketsOK, UsesOK;
  }

  // ---------------------------------------------------------------- start

  lemma StepsWithVerifier(cfg: Config, v: World, w: World, hid: Id, c: Choice, sid: Id, s: OAuthSession)
    requires Begun(cfg, v, w, hid, c) && CopyOf(w.hist.sessions, w.hist.verifiers, sid, s)
    ensures Core(cfg, StepWithVerifier(w, sid, s, hid, c))
  {
    hide Core;
    DrawIsNew(cfg, v, w, hid, c);
    KeepVerifier(cfg, w, c.draw, sid);
    KeepMove(cfg, WithVerifier(w, c.draw, sid), hid, StartTtl(sid, s.(codeVerifier := Some(c.draw))));
  }

  lemma StepsStartGet(cfg: Config, v: World, w: World, hid: Id, c: Choice, route: Route, sid: Id)
    requires Begun(cfg, v, w, hid, c) && v.handlers[hid] == StartGet(route, sid)
    ensures Core(cfg, StepStartGet(w, hid, route, sid, c))
  {
    hide Core, CopyOf, ReadSession, StepWithVerifier, RouteServes;
    if ReadSession(w, sid).None? || !RouteServes(route, ReadSession(w, sid).value) {
      KeepMove(cfg, w, hid, Finished);
    } else {
      var s := ReadSession(w, sid).value;
      SessionReadIs(cfg, w, sid);
      if route.Enterprise? {
        KeepMove(cfg, w, hid, StartResolve(sid, s));
      } else {
        StepsWithVerifier(cfg, v, w, hid, c, sid, s);
      }
    }
  }

  lemma StepsStartResolve(cfg: Config, v: World, w: World, hid: Id, c: Choice, sid: Id, s: OAuthSession)
    requires Begun(cfg, v, w, hid, c) && v.handlers[hid] == StartResolve(sid, s)
    ensures Core(cfg, StepStartResolve(w, hid, sid, s, c))
  {
    hide Core, StepWithVerifier;
    if c.ok {
      StepsWithVerifier(cfg, v, w, hid, c, sid, s);
    } else {
      KeepMove(cfg, w, hid, CloseAndEnd(sid, false));
    }
  }

  lemma StepsStartTtl(cfg: Config, v: World, w: World, hid: Id, c: Choice, sid: Id, s: OAuthSession)
    requires Begun(cfg, v, w, hid, c) && v.handlers[hid] == StartTtl(sid, s)
    ensures Core(cfg, StepStartTtl(w, hid, sid, s))
  {
    hide Core;
    KeepMove(cfg, w, hid, StartSave(sid, s, TtlReply(w.db, SessionKey(sid), w.now)));
  }

  lemma StepsStartSave(cfg: Config, v: World, w: World, hid: Id, c: Choice, sid: Id, s: OAuthSession, ttl: int)
    requires Begun(cfg, v, w, hid, c) && v.handlers[hid] == StartSave(sid, s, ttl)
    ensures Core(cfg, StepStartSave(w, hid, sid, s, ttl))
  {
    hide Core;
    var seconds := if ttl > 0 then ttl else SESSION_TTL_SECONDS;
    KeepStore(cfg, w, SessionKey(sid), SessionValue(s), seconds);
    KeepMove(cfg, Store(w, SessionKey(sid), SessionValue(s), seconds), hid, Finished);
  }

  // ---------------------------------------------------------------- callback

  lemma CopyIsKnown(h: History, sid: Id, s: OAuthSession)
    requires CopyOf(h.sessions, h.verifiers, sid, s)
    ensures sid in h.sessions
  {
  }

  lemma StepsCallbackGet(cfg: Config, v: World, w: World, hid: Id, c: Choice, route: Route, sid: Id, cb: CallbackRequest)
    requires Begun(cfg, v, w, hid, c) && v.handlers[hid] == CallbackGet(route, sid, cb)
    ensures Core(cfg, StepCallbackGet(w, hid, route, sid, cb))
  {
    hide Core, CopyOf, ReadSession, RouteServes;
    if ReadSession(w, sid).None? {
      KeepMove(cfg, w, hid, Finished);
    } else {
      var s := ReadSession(w, sid).value;
      SessionReadIs(cfg, w, sid);
      CopyIsKnown(w.hist, sid, s);
      if !RouteServes(route, s) || cb.state != Some(s.state) {
        KeepMove(cfg, w, hid, Finished);
      } else if cb.hasError {
        KeepMove(cfg, w, hid, CloseAndEnd(sid, true));
      } else if !cb.hasCode || s.codeVerifier.None? {
        KeepMove(cfg, w, hid, Finished);
      } else if route.Enterprise? {
        KeepMove(cfg, w, hid, CallbackResolve(route, sid, s));
      } else {
        KeepMove(cfg, w, hid, CallbackVerify(route, sid, s));
      }
    }
  }

  lemma StepsCallbackResolve(cfg: Config, v: World, w: World, hid: Id, c: Choice, route: Route, sid: Id, s: OAuthSession)
    requires Begun(cfg, v, w, hid, c) && v.handlers[hid] == CallbackResolve(route, sid, s)
    ensures Core(cfg, StepCallbackResolve(w, hid, route, sid, s, c))
  {
    hide Core;
    KeepMove(cfg, w, hid, if c.ok then CallbackVerify(route, sid, s) else CloseAndEnd(sid, false));
  }

  lemma CreatedEarlier(cfg: Config, v: World, w: World, hid: Id, c: Choice, sid: Id)
    requires Begun(cfg, v, w, hid, c) && sid in w.hist.sessions
    ensures w.hist.sessions[sid].at < Index(w) && SessionOK(w.hist.sessions[sid], w.hist.approvals, w.hist.claims)
  {
    hide HandlerOK, HandlersOK, EntriesOK, TokensOK, LoginsOK, OriginsOK, ChallengesOK, CodesOK, TicketsOK, UsesOK, SessionOK;
  }

  /** The login a verified callback records fits its session; a link session names a user. */
  lemma LoginIsOK(w: World, hid: Id, visit: Visit, l: Login)
    requires CopyOf(w.hist.sessions, w.hist.verifiers, visit.sid, visit.session) && RouteServes(visit.route, visit.session)
    requires visit.session.codeVerifier.Some? && visit.who.sub != ""
    requires l == Login(visit.sid, visit.route, visit.session.nonce, visit.session.codeVerifier.value, visit.who, l.at)
    requires w.hist.sessions[visit.sid].at < l.at
    requires SessionOK(w.hist.sessions[visit.sid], w.hist.approvals, w.hist.claims)
    ensures LoginOK(l, w.hist.sessions, w.hist.verifiers)
    ensures VisitOK(WithLogin(w, hid, l).hist, hid, visit)
    ensures visit.sid in w.hist.sessions
    ensures visit.session.linkKisUserId.Some? ==> visit.session.linkKisUserId.value != "" && ArgsOf(visit).user != ""
  {
  }

  lemma VerifyKnows(cfg: Config, v: World, w: World, hid: Id, c: Choice, route: Route, sid: Id, s: OAuthSession)
    requires Begun(cfg, v, w, hid, c) && v.handlers[hid] == CallbackVerify(route, sid, s)
    ensures Core(cfg, w) && CopyOf(w.hist.sessions, w.hist.verifiers, sid, s) && RouteServes(route, s) && s.codeVerifier.Some?
  {
    hide Core, CopyOf, RouteServes;
  }

  lemma CloserIsOK(cfg: Config, w: World, hid: Id, sid: Id, redirect: bool)
    requires sid in w.hist.sessions
    ensures HandlerOK(cfg, w.hist, w.rows, w.now, hid, CloseAndEnd(sid, redirect))
  {
  }

  lemma VerifiedIsOK(cfg: Config, w: World, hid: Id, visit: Visit)
    requires VisitOK(w.hist, hid, visit) && visit.sid in w.hist.sessions
    ensures visit.session.purpose != "link" ==> HandlerOK(cfg, w.hist, w.rows, w.now, hid, FindIdentity(visit))
    ensures visit.session.purpose == "link" && visit.session.linkKisUserId.Some? && visit.session.linkKisUserId.value != "" ==>
              HandlerOK(cfg, w.hist, w.rows, w.now, hid, LinkSelect(FromCallback(visit), ArgsOf(visit)))
  {
    hide VisitOK;
  }

  lemma StepsCallbackVerify(cfg: Config, v: World, w: World, hid: Id, c: Choice, route: Route, sid: Id, s: OAuthSession)
    requires Begun(cfg, v, w, hid, c) && v.handlers[hid] == CallbackVerify(route, sid, s) && hid !in v.hist.logins
    ensures Core(cfg, StepCallbackVerify(w, hid, route, sid, s, c))
  {
    hide Core, HandlerOK, RouteServes, LoginOK, VisitOK, SessionOK, ArgsOf;
    VerifyKnows(cfg, v, w, hid, c, route, sid, s);
    CreatedEarlier(cfg, v, w, hid, c, sid);
    if !c.ok || c.who.sub == "" || s.codeVerifier.None? {
      CloserIsOK(cfg, w, hid, sid, true);
      KeepMove(cfg, w, hid, CloseAndEnd(sid, true));
    } else {
      var l := Login(sid, route, s.nonce, s.codeVerifier.value, c.who, Index(w));
      var visit := Visit(route, sid, s, c.who);
      LoginIsOK(w, hid, visit, l);
      KeepLogin(cfg, w, hid, l);
      var w1 := WithLogin(w, hid, l);
      VerifiedIsOK(cfg, w1, hid, visit);
      if s.purpose != "link" {
        KeepMove(cfg, w1, hid, FindIdentity(visit));
      } else if s.linkKisUserId.None? {
        CloserIsOK(cfg, w1, hid, sid, false);
        KeepMove(cfg, w1, hid, CloseAndEnd(sid, false));
      } else {
        KeepMove(cfg, w1, hid, LinkSelect(FromCallback(visit), ArgsOf(visit)));
      }
    }
  }

  lemma StepsCloseAndEnd(cfg: Config, v: World, w: World, hid: Id, c: Choice, sid: Id, redirect: bool)
    requires Begun(cfg, v, w, hid, c) && v.handlers[hid] == CloseAndEnd(sid, redirect)
    ensures Core(cfg, StepCloseAndEnd(w, hid, sid, redirect))
  {
    hide Core;
    KeepClose(cfg, w, sid);
    KeepMove(cfg, Close(w, sid), hid, Finished);
    KeepOutput(cfg, Close(w, sid), hid, sid, ErrorOutput);
  }
}
