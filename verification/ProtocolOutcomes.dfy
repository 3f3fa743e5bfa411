/** Steps of the callback outcomes, of linking and of the exchanges keep the core invariant. */
module ProtocolOutcomes {
  import opened Wrappers
  import opened Records
  import opened RedisKeyspace
  import opened IdentityTable
  import opened TenantKey
  import opened Protocol
  import opened ProtocolInvariant
  import opened ProtocolChanges
  import opened ProtocolSteps

  // ---------------------------------------------------------------- facts handlers use

  /** The parts of a visit the outcome logic relies on. */
  lemma VisitFacts(cfg: Config, v: World, w: World, hid: Id, c: Choice, visit: Visit)
    requires Begun(cfg, v, w, hid, c) && VisitOK(w.hist, hid, visit)
    ensures visit.sid in w.hist.sessions && hid in w.hist.logins
    ensures w.hist.logins[hid].sid == visit.sid && w.hist.logins[hid].route == visit.route && w.hist.logins[hid].who == visit.who
    ensures w.hist.logins[hid].at < Index(w)
    ensures var s := w.hist.sessions[visit.sid].base;
            s.purpose == visit.session.purpose && s.clientId == visit.session.clientId
            && s.redirectUri == visit.session.redirectUri && s.linkKisUserId == visit.session.linkKisUserId
  {
    hide HandlerOK, HandlersOK, EntriesOK, TokensOK, OriginsOK, ChallengesOK, CodesOK, TicketsOK, UsesOK, SessionsOK;
  }

  lemma RowUserIsNamed(cfg: Config, w: World, id: Id)
    requires Core(cfg, w) && id in w.rows
    ensures w.rows[id].user != ""
  {
    hide HandlersOK, EntriesOK, TokensOK, OriginsOK, ChallengesOK, CodesOK, TicketsOK, UsesOK, SessionsOK;
  }

  lemma StepsFindIdentity(cfg: Config, v: World, w: World, hid: Id, c: Choice, visit: Visit)
    requires Begun(cfg, v, w, hid, c) && v.handlers[hid] == FindIdentity(visit) && hid !in v.hist.uses
    ensures Core(cfg, StepFindIdentity(w, hid, visit))
  {
    hide Core;
    VisitFacts(cfg, v, w, hid, c, visit);
    hide VisitOK, RouteServes, LoginOK;
    match FindByKey(w.rows, ProviderOf(visit.route), SubjectOf(visit.route, visit.who.sub))
    case None =>
      KeepMove(cfg, w, hid, if visit.session.purpose == "registration" then RegisterClose(visit, false) else CloseAndEnd(visit.sid, true));
    case Some(id) =>
      KeepUse(cfg, w, hid, id);
      VisitKept(w.hist, WithUse(w, hid, id).hist, hid, visit);
      if visit.session.purpose == "registration" {
        KeepMove(cfg, WithUse(w, hid, id), hid, RegisterClose(visit, true));
      } else {
        RowUserIsNamed(cfg, w, id);
        KeepMove(cfg, WithUse(w, hid, id), hid, Touch(visit, id, w.rows[id].user));
      }
  }

  /** A visit stays good while sessions, verifiers and logins stay. */
  lemma VisitKept(h: History, h': History, hid: Id, visit: Visit)
    requires VisitOK(h, hid, visit)
    requires h'.sessions == h.sessions && h'.verifiers == h.verifiers && h'.logins == h.logins
    ensures VisitOK(h', hid, visit)
  {
  }

  // ---------------------------------------------------------------- IdentityService.link

  lemma SourceKept(h: History, h': History, hid: Id, src: LinkSource, a: LinkArgs)
    requires SourceOK(h, hid, src, a)
    requires h'.sessions == h.sessions && h'.verifiers == h.verifiers && h'.logins == h.logins
    ensures SourceOK(h', hid, src, a)
  {
  }

  lemma SourceFacts(h: History, hid: Id, src: LinkSource, a: LinkArgs)
    requires SourceOK(h, hid, src, a) && src.FromCallback?
    ensures hid in h.logins && src.visit.session.linkKisUserId.Some? && a == ArgsOf(src.visit)
    ensures a.provider == ProviderOf(h.logins[hid].route) && a.subject == SubjectOf(h.logins[hid].route, h.logins[hid].who.sub)
    ensures h.logins[hid].sid in h.sessions && h.sessions[h.logins[hid].sid].base.purpose == "link"
    ensures h.sessions[h.logins[hid].sid].base.linkKisUserId == Some(a.user)
  {
  }

  lemma KeepAnswer(cfg: Config, w: World, hid: Id, src: LinkSource, a: LinkArgs, r: LinkResult)
    requires Core(cfg, w) && SourceOK(w.hist, hid, src, a) && hid !in w.hist.links && hid !in w.hist.uses
    requires LinkOK(LinkOutcome(a, r), w.rows)
    ensures Core(cfg, Answer(w, hid, src, a, r))
  {
    hide Core, SourceOK, LinkOK;
    var told := WithLink(w, hid, LinkOutcome(a, r));
    KeepLink(cfg, w, hid, LinkOutcome(a, r));
    if src.FromServer? {
      KeepMove(cfg, told, hid, Finished);
    } else {
      SourceFacts(w.hist, hid, src, a);
      if r.Linked? {
        LinkedHolds(w.rows, a, r.id);
        KeepUse(cfg, told, hid, r.id);
        SourceKept(w.hist, WithUse(told, hid, r.id).hist, hid, src, a);
        KeepMove(cfg, WithUse(told, hid, r.id), hid, LinkClose(src.visit, r));
      } else {
        SourceKept(w.hist, told.hist, hid, src, a);
        KeepMove(cfg, told, hid, LinkClose(src.visit, r));
      }
    }
  }

  lemma LinkedHolds(rows: Table, a: LinkArgs, id: Id)
    requires LinkOK(LinkOutcome(a, Linked(id)), rows)
    ensures HoldsTriple(rows, id, a)
  {
  }

  lemma StepsLinkSelect(cfg: Config, v: World, w: World, hid: Id, c: Choice, src: LinkSource, a: LinkArgs)
    requires Begun(cfg, v, w, hid, c) && v.handlers[hid] == LinkSelect(src, a) && hid !in v.hist.links && hid !in v.hist.uses
    ensures Core(cfg, StepLinkSelect(w, hid, src, a))
  {
    hide Core, SourceOK;
    match FindByKey(w.rows, a.provider, a.subject)
    case None =>
      KeepMove(cfg, w, hid, LinkInsert(src, a));
    case Some(id) =>
      if w.rows[id].user != a.user {
        KeepAnswer(cfg, w, hid, src, a, AlreadyLinked);
      } else {
        KeepMove(cfg, w, hid, LinkUpdate(src, a, id));
      }
  }

  lemma StepsLinkUpdate(cfg: Config, v: World, w: World, hid: Id, c: Choice, src: LinkSource, a: LinkArgs, id: Id)
    requires Begun(cfg, v, w, hid, c) && v.handlers[hid] == LinkUpdate(src, a, id) && hid !in v.hist.links && hid !in v.hist.uses
    ensures Core(cfg, StepLinkUpdate(w, hid, src, a, id))
  {
    hide Core, SourceOK, Answer;
    var r := w.rows[id].(email := a.email, emailVerified := a.emailVerified);
    KeepRow(cfg, w, id, r);
    KeepAnswer(cfg, w.(rows := w.rows[id := r]), hid, src, a, Linked(id));
  }

  lemma NewRowOrigin(cfg: Config, w: World, hid: Id, src: LinkSource, a: LinkArgs, id: Id)
    requires SourceOK(w.hist, hid, src, a)
    ensures OriginOK(id, if src.FromServer? then ByServer else ByCallback(hid), w.hist.logins, w.hist.sessions, Inserted(w.rows, id, a))
    ensures LinkOK(LinkOutcome(a, Linked(id)), Inserted(w.rows, id, a))
    ensures a.user != ""
  {
  }

  lemma StepsLinkInsert(cfg: Config, v: World, w: World, hid: Id, c: Choice, src: LinkSource, a: LinkArgs)
    requires Begun(cfg, v, w, hid, c) && v.handlers[hid] == LinkInsert(src, a) && hid !in v.hist.links && hid !in v.hist.uses
    ensures Core(cfg, StepLinkInsert(w, hid, src, a, c))
  {
    hide Core, SourceOK, Answer, Conflicts, OriginOK, Inserted;
    if Conflicts(w.rows, a) {
      KeepAnswer(cfg, w, hid, src, a, AlreadyLinked);
    } else {
      DrawIsNew(cfg, v, w, hid, c);
      var o := if src.FromServer? then ByServer else ByCallback(hid);
      NewRowOrigin(cfg, w, hid, src, a, c.draw);
      KeepInsert(cfg, w, c.draw, a, o);
      var w1 := WithInsert(w, c.draw, a, o);
      SourceKept(w.hist, w1.hist, hid, src, a);
      KeepAnswer(cfg, w1, hid, src, a, Linked(c.draw));
    }
  }

  // ---------------------------------------------------------------- OAuthOutcomeService

  lemma LinkRecordOK(cfg: Config, w: World, hid: Id, visit: Visit, id: Id)
    requires visit.session.linkKisUserId.Some? && SourceOK(w.hist, hid, FromCallback(visit), ArgsOf(visit))
    requires HoldsTriple(w.rows, id, ArgsOf(visit)) && hid in w.hist.uses && w.hist.uses[hid] == id
    ensures RecordFits(cfg, w.hist, w.rows, hid, RecordFor(cfg, visit, visit.session.linkKisUserId.value, id))
    ensures VisitOK(w.hist, hid, visit) && visit.sid in w.hist.sessions
  {
  }

  lemma StepsLinkClose(cfg: Config, v: World, w: World, hid: Id, c: Choice, visit: Visit, r: LinkResult)
    requires Begun(cfg, v, w, hid, c) && v.handlers[hid] == LinkClose(visit, r)
    ensures Core(cfg, StepLinkClose(cfg, w, hid, visit, r))
  {
    hide Core, Close, SourceOK, RecordFits, VisitOK, RecordFor;
    SourceSession(w.hist, hid, visit);
    KeepClose(cfg, w, visit.sid);
    CloseKeepsEvents(w, visit.sid);
    if r.AlreadyLinked? {
      KeepOutput(cfg, Close(w, visit.sid), hid, visit.sid, ErrorOutput);
    } else {
      LinkRecordOK(cfg, w, hid, visit, r.id);
      var record := RecordFor(cfg, visit, visit.session.linkKisUserId.value, r.id);
      FitsAfterClose(cfg, w, hid, visit, record);
      KeepMove(cfg, Close(w, visit.sid), hid, CreateChallenge(visit, record));
    }
  }

  lemma SourceSession(h: History, hid: Id, visit: Visit)
    requires visit.session.linkKisUserId.Some? && SourceOK(h, hid, FromCallback(visit), ArgsOf(visit))
    ensures visit.sid in h.sessions
  {
  }

  lemma CloseKeepsEvents(w: World, sid: Id)
    ensures var w' := Close(w, sid);
            w'.rows == w.rows && w'.now == w.now && w'.hist == w.hist.(closed := w.hist.closed + {sid})
  {
  }

  lemma FitsAfterClose(cfg: Config, w: World, hid: Id, visit: Visit, r: ChallengeRecord)
    requires VisitOK(w.hist, hid, visit) && RecordFits(cfg, w.hist, w.rows, hid, r)
    ensures var w' := Close(w, visit.sid);
            VisitOK(w'.hist, hid, visit) && RecordFits(cfg, w'.hist, w'.rows, hid, r)
  {
    hide RecordOK;
  }

  lemma StepsRegisterClose(cfg: Config, v: World, w: World, hid: Id, c: Choice, visit: Visit, known: bool)
    requires Begun(cfg, v, w, hid, c) && v.handlers[hid] == RegisterClose(visit, known)
    ensures Core(cfg, StepRegisterClose(w, hid, visit, known))
  {
    hide Core, VisitOK, Close;
    VisitFacts(cfg, v, w, hid, c, visit);
    KeepClose(cfg, w, visit.sid);
    CloseKeepsEvents(w, visit.sid);
    if known {
      KeepOutput(cfg, Close(w, visit.sid), hid, visit.sid, ErrorOutput);
    } else {
      VisitKept(w.hist, Close(w, visit.sid).hist, hid, visit);
      KeepMove(cfg, Close(w, visit.sid), hid, RegisterIssue(visit));
    }
  }

  lemma StepsRegisterIssue(cfg: Config, v: World, w: World, hid: Id, c: Choice, visit: Visit)
    requires Begun(cfg, v, w, hid, c) && v.handlers[hid] == RegisterIssue(visit)
    ensures Core(cfg, StepRegisterIssue(cfg, w, hid, visit, c))
  {
    hide Core, VisitOK;
    VisitFacts(cfg, v, w, hid, c, visit);
    DrawIsNew(cfg, v, w, hid, c);
    KeepIssuedTicket(cfg, w, hid, visit, c.draw);
    var w1 := Store(WithTicket(w, c.draw, TicketInfo(TicketFor(visit), visit.sid, hid, Index(w))),
                    TicketKey(c.draw), TicketValue(TicketFor(visit)), cfg.authCodeTtlSeconds);
    KeepOutput(cfg, w1, hid, visit.sid, TicketOutput);
  }

  lemma KeepIssuedTicket(cfg: Config, w: World, hid: Id, visit: Visit, t: Id)
    requires Core(cfg, w) && t in w.hist.drawn && t !in w.hist.tickets && t !in w.hist.codes && t !in w.hist.redeemedTickets
    requires w.hist.steps >= 1 && TicketOK(TicketInfo(TicketFor(visit), visit.sid, hid, Index(w)), w.hist.logins, w.hist.sessions)
    ensures Core(cfg, Store(WithTicket(w, t, TicketInfo(TicketFor(visit), visit.sid, hid, Index(w))),
                            TicketKey(t), TicketValue(TicketFor(visit)), cfg.authCodeTtlSeconds))
  {
    hide Core, TicketOK, TicketFor;
    var info := TicketInfo(TicketFor(visit), visit.sid, hid, Index(w));
    KeepTicket(cfg, w, t, info);
    KeepStore(cfg, WithTicket(w, t, info), TicketKey(t), TicketValue(TicketFor(visit)), cfg.authCodeTtlSeconds);
  }

  lemma StepsTouch(cfg: Config, v: World, w: World, hid: Id, c: Choice, visit: Visit, row: Id, user: string)
    requires Begun(cfg, v, w, hid, c) && v.handlers[hid] == Touch(visit, row, user)
    ensures Core(cfg, StepTouch(cfg, w, hid, visit, row, user))
  {
    hide Core, VisitOK, RecordFits, RecordFor;
    KeepMove(cfg, w, hid, CreateChallenge(visit, RecordFor(cfg, visit, user, row)));
  }

  lemma StepsCreateChallenge(cfg: Config, v: World, w: World, hid: Id, c: Choice, visit: Visit, r: ChallengeRecord)
    requires Begun(cfg, v, w, hid, c) && v.handlers[hid] == CreateChallenge(visit, r)
    ensures Core(cfg, StepCreateChallenge(cfg, w, hid, visit, r, c))
  {
    hide Core, VisitOK, RecordFits;
    VisitFacts(cfg, v, w, hid, c, visit);
    DrawIsNew(cfg, v, w, hid, c);
    KeepNewChallenge(cfg, w, hid, visit, r, c.draw);
    var info := ChallengeInfo(visit.sid, hid, r, Index(w));
    var w1 := Store(WithChallenge(w, c.draw, info), ChallengeKey(c.draw), ChallengeValue(r), cfg.challengeTtlSeconds);
    OwnNewChallenge(w, hid, visit, c.draw, info);
    KeepMove(cfg, w1, hid, if visit.session.purpose == "link" then ConfirmGet(visit, c.draw) else ReturnClose(visit, c.draw));
  }

  lemma OwnNewChallenge(w: World, hid: Id, visit: Visit, ch: Id, info: ChallengeInfo)
    requires VisitOK(w.hist, hid, visit) && info.owner == hid && info.sid == visit.sid
    ensures OwnChallenge(WithChallenge(w, ch, info).hist, hid, visit, ch)
  {
  }

  lemma KeepNewChallenge(cfg: Config, w: World, hid: Id, visit: Visit, r: ChallengeRecord, ch: Id)
    requires Core(cfg, w) && ch in w.hist.drawn && ch !in w.hist.challenges && w.hist.steps >= 1
    requires RecordFits(cfg, w.hist, w.rows, hid, r)
    requires hid in w.hist.logins && w.hist.logins[hid].sid == visit.sid && w.hist.logins[hid].at < Index(w)
    ensures Core(cfg, Store(WithChallenge(w, ch, ChallengeInfo(visit.sid, hid, r, Index(w))),
                            ChallengeKey(ch), ChallengeValue(r), cfg.challengeTtlSeconds))
  {
    hide Core;
    var info := ChallengeInfo(visit.sid, hid, r, Index(w));
    KeepChallenge(cfg, w, ch, info);
    KeepStore(cfg, WithChallenge(w, ch, info), ChallengeKey(ch), ChallengeValue(r), cfg.challengeTtlSeconds);
  }

  lemma StepsReturnClose(cfg: Config, v: World, w: World, hid: Id, c: Choice, visit: Visit, ch: Id)
    requires Begun(cfg, v, w, hid, c) && v.handlers[hid] == ReturnClose(visit, ch)
    ensures Core(cfg, StepReturnClose(w, hid, visit, ch))
  {
    hide Core, VisitOK, Close;
    VisitFacts(cfg, v, w, hid, c, visit);
    KeepClose(cfg, w, visit.sid);
    CloseKeepsEvents(w, visit.sid);
    VisitKept(w.hist, Close(w, visit.sid).hist, hid, visit);
    KeepMove(cfg, Close(w, visit.sid), hid, ConfirmGet(visit, ch));
  }

  lemma ChallengeReadIs(cfg: Config, w: World, ch: Id)
    requires Core(cfg, w) && ReadChallenge(w, ch).Some?
    ensures ch in w.hist.challenges && ReadChallenge(w, ch).value.(used := false) == w.hist.challenges[ch].record
    ensures !w.hist.challenges[ch].record.used
  {
    hide HandlersOK;
    assert ChallengeOK(cfg, w.hist.challenges[ch], w.hist.logins, w.hist.sessions, w.hist.uses, w.rows);
  }

  lemma StepsConfirmGet(cfg: Config, v: World, w: World, hid: Id, c: Choice, visit: Visit, ch: Id)
    requires Begun(cfg, v, w, hid, c) && v.handlers[hid] == ConfirmGet(visit, ch)
    ensures Core(cfg, StepConfirmGet(w, hid, visit, ch))
  {
    hide Core, VisitOK, ReadChallenge;
    if ReadChallenge(w, ch).Some? && Confirmable(ReadChallenge(w, ch).value) {
      ChallengeReadIs(cfg, w, ch);
      KeepMove(cfg, w, hid, MarkGet(visit, ch, ReadChallenge(w, ch).value));
    } else {
      KeepMove(cfg, w, hid, Finished);
    }
  }

  lemma StepsMarkGet(cfg: Config, v: World, w: World, hid: Id, c: Choice, visit: Visit, ch: Id, r: ChallengeRecord)
    requires Begun(cfg, v, w, hid, c) && v.handlers[hid] == MarkGet(visit, ch, r)
    ensures Core(cfg, StepMarkGet(w, hid, visit, ch, r))
  {
    hide Core, VisitOK, ReadChallenge;
    if ReadChallenge(w, ch).Some? {
      ChallengeReadIs(cfg, w, ch);
      KeepMove(cfg, w, hid, MarkTtl(visit, ch, r, ReadChallenge(w, ch).value.(used := true)));
    } else {
      KeepMove(cfg, w, hid, IssueCode(visit, ch, r));
    }
  }

  lemma StepsMarkTtl(cfg: Config, v: World, w: World, hid: Id, c: Choice, visit: Visit, ch: Id, r: ChallengeRecord, stored: ChallengeRecord)
    requires Begun(cfg, v, w, hid, c) && v.handlers[hid] == MarkTtl(visit, ch, r, stored)
    ensures Core(cfg, StepMarkTtl(w, hid, visit, ch, r, stored))
  {
    hide Core, VisitOK, TtlReply;
    var ttl := TtlReply(w.db, ChallengeKey(ch), w.now);
    if ttl <= 0 {
      KeepMove(cfg, w, hid, IssueCode(visit, ch, r));
    } else {
      KeepMove(cfg, w, hid, MarkSave(visit, ch, r, stored, ttl));
    }
  }

  lemma StepsMarkSave(cfg: Config, v: World, w: World, hid: Id, c: Choice, visit: Visit, ch: Id, r: ChallengeRecord,
                      stored: ChallengeRecord, ttl: int)
    requires Begun(cfg, v, w, hid, c) && v.handlers[hid] == MarkSave(visit, ch, r, stored, ttl)
    ensures Core(cfg, StepMarkSave(w, hid, visit, ch, r, stored, ttl))
  {
    hide Core, VisitOK;
    RecordIsUnused(cfg, w, ch);
    KeepStore(cfg, w, ChallengeKey(ch), ChallengeValue(stored), ttl);
    KeepMove(cfg, Store(w, ChallengeKey(ch), ChallengeValue(stored), ttl), hid, IssueCode(visit, ch, r));
  }

  lemma RecordIsUnused(cfg: Config, w: World, ch: Id)
    requires Core(cfg, w) && ch in w.hist.challenges
    ensures !w.hist.challenges[ch].record.used
    ensures w.hist.challenges[ch].record.kisUserId.Some? && w.hist.challenges[ch].record.authIdentityId.Some?
    ensures w.hist.challenges[ch].sid in w.hist.sessions
  {
    hide HandlersOK, EntriesOK;
    assert ChallengeOK(cfg, w.hist.challenges[ch], w.hist.logins, w.hist.sessions, w.hist.uses, w.rows);
  }

  lemma ChallengedEarlier(cfg: Config, v: World, w: World, hid: Id, c: Choice, ch: Id)
    requires Begun(cfg, v, w, hid, c) && ch in w.hist.challenges
    ensures w.hist.challenges[ch].at < Index(w)
  {
    hide HandlerOK, HandlersOK, EntriesOK, TokensOK, OriginsOK, CodesOK, TicketsOK, UsesOK, SessionsOK, ChallengeOK;
  }

  lemma StepsIssueCode(cfg: Config, v: World, w: World, hid: Id, c: Choice, visit: Visit, ch: Id, r: ChallengeRecord)
    requires Begun(cfg, v, w, hid, c) && v.handlers[hid] == IssueCode(visit, ch, r)
    ensures Core(cfg, StepIssueCode(cfg, w, hid, visit, ch, r, c))
  {
    hide Core, VisitOK;
    VisitFacts(cfg, v, w, hid, c, visit);
    RecordIsUnused(cfg, w, ch);
    ChallengedEarlier(cfg, v, w, hid, c, ch);
    DrawIsNew(cfg, v, w, hid, c);
    KeepIssuedCode(cfg, w, hid, visit, ch, r, c.draw);
    var p := PayloadFor(visit, r);
    var w1 := Store(WithCode(w, c.draw, CodeInfo(p, visit.sid, ch, hid, Index(w))), CodeKey(c.draw), CodeValue(p), cfg.authCodeTtlSeconds);
    KeepOutput(cfg, w1, hid, visit.sid, CodeOutput);
  }

  lemma KeepIssuedCode(cfg: Config, w: World, hid: Id, visit: Visit, ch: Id, r: ChallengeRecord, code: Id)
    requires Core(cfg, w) && code in w.hist.drawn && code !in w.hist.codes && code !in w.hist.tickets && code !in w.hist.redeemed && w.hist.steps >= 1
    requires r.kisUserId.Some? && r.authIdentityId.Some?
    requires CodeOK(CodeInfo(PayloadFor(visit, r), visit.sid, ch, hid, Index(w)), w.hist.challenges, w.hist.sessions)
    ensures Core(cfg, Store(WithCode(w, code, CodeInfo(PayloadFor(visit, r), visit.sid, ch, hid, Index(w))),
                            CodeKey(code), CodeValue(PayloadFor(visit, r)), cfg.authCodeTtlSeconds))
  {
    hide Core, CodeOK, PayloadFor;
    var info := CodeInfo(PayloadFor(visit, r), visit.sid, ch, hid, Index(w));
    KeepCode(cfg, w, code, info);
    KeepStore(cfg, WithCode(w, code, info), CodeKey(code), CodeValue(info.payload), cfg.authCodeTtlSeconds);
  }

  // ---------------------------------------------------------------- exchanges

  lemma CodeReadIs(cfg: Config, w: World, code: Id)
    requires Core(cfg, w) && Live(w.db, CodeKey(code), w.now)
    ensures code in w.hist.codes && w.db[CodeKey(code)].value == CodeValue(w.hist.codes[code].payload) && code !in w.hist.redeemed
  {
    hide HandlersOK, TokensOK, OriginsOK, UsesOK, SessionsOK, ChallengesOK, LoginsOK, CodesOK, TicketsOK, CopyOf;
  }

  /** A step starts in a state of the invariant. */
  lemma BegunCore(cfg: Config, v: World, w: World, hid: Id, c: Choice)
    requires Begun(cfg, v, w, hid, c)
    ensures Core(cfg, w)
  {
    hide Core, HandlerOK;
  }

  lemma ConsumeIs(w: World, hid: Id, code: Id, clientId: string, redirectUri: string, p: AuthorizationCodePayload)
    requires clientId != "" && redirectUri != "" && Live(w.db, CodeKey(code), w.now) && w.db[CodeKey(code)].value == CodeValue(p)
    ensures StepExchangeConsume(w, hid, code, clientId, redirectUri)
            == Goto(WithRedeemed(w.(db := Del(w.db, CodeKey(code))), code, hid), hid,
                    if p.clientId != clientId || p.redirectUri != redirectUri then Finished else ExchangeFind(code, p))
  {
    hide Del;
  }

  lemma ConsumeDead(w: World, hid: Id, code: Id, clientId: string, redirectUri: string)
    requires !Live(w.db, CodeKey(code), w.now) || clientId == "" || redirectUri == ""
    ensures StepExchangeConsume(w, hid, code, clientId, redirectUri) == End(w, hid)
  {
  }

  lemma FinishedIsOK(cfg: Config, w: World, hid: Id)
    ensures HandlerOK(cfg, w.hist, w.rows, w.now, hid, Finished)
  {
  }

  lemma RedeemerIsOK(cfg: Config, w: World, hid: Id, code: Id, p: AuthorizationCodePayload)
    requires code in w.hist.redeemed && w.hist.redeemed[code] == hid && code in w.hist.codes && w.hist.codes[code].payload == p
    ensures HandlerOK(cfg, w.hist, w.rows, w.now, hid, ExchangeFind(code, p))
  {
  }

  lemma StepsExchangeConsume(cfg: Config, v: World, w: World, hid: Id, c: Choice, code: Id, clientId: string, redirectUri: string)
    requires Begun(cfg, v, w, hid, c) && v.handlers[hid] == ExchangeConsume(code, clientId, redirectUri)
    ensures Core(cfg, StepExchangeConsume(w, hid, code, clientId, redirectUri))
  {
    hide Core, Live, Begun, StepExchangeConsume, HandlerOK;
    BegunCore(cfg, v, w, hid, c);
    if clientId == "" || redirectUri == "" || !Live(w.db, CodeKey(code), w.now) {
      ConsumeDead(w, hid, code, clientId, redirectUri);
      FinishedIsOK(cfg, w, hid);
      KeepMove(cfg, w, hid, Finished);
    } else {
      CodeReadIs(cfg, w, code);
      var p := w.hist.codes[code].payload;
      ConsumeIs(w, hid, code, clientId, redirectUri, p);
      KeepDelete(cfg, w, CodeKey(code));
      var w1 := w.(db := Del(w.db, CodeKey(code)));
      KeepRedeemed(cfg, w1, code, hid);
      var w2 := WithRedeemed(w1, code, hid);
      FinishedIsOK(cfg, w2, hid);
      RedeemerIsOK(cfg, w2, hid, code, p);
      KeepMove(cfg, w2, hid, if p.clientId != clientId || p.redirectUri != redirectUri then Finished else ExchangeFind(code, p));
    }
  }

  lemma IssuedEarlier(cfg: Config, v: World, w: World, hid: Id, c: Choice, code: Id)
    requires Begun(cfg, v, w, hid, c)
    ensures code in w.hist.codes ==> w.hist.codes[code].at < Index(w)
    ensures code in w.hist.tickets ==> w.hist.tickets[code].at < Index(w)
  {
    hide HandlerOK, HandlersOK, EntriesOK, TokensOK, OriginsOK, UsesOK, SessionsOK, ChallengesOK, CodeOK, TicketOK;
  }

  lemma RedeemerKnows(cfg: Config, v: World, w: World, hid: Id, c: Choice)
    requires Begun(cfg, v, w, hid, c) && (v.handlers[hid].ExchangeFind? || v.handlers[hid].ExchangeSign?)
    ensures Core(cfg, w)
    ensures var h := v.handlers[hid];
            && h.code in w.hist.redeemed && w.hist.redeemed[h.code] == hid
            && h.code in w.hist.codes && w.hist.codes[h.code].payload == h.payload
            && (h.ExchangeSign? ==> w.hist.codes[h.code].at < h.foundAt)
  {
    hide Core;
  }

  lemma SignerIsOK(cfg: Config, w: World, hid: Id, code: Id, p: AuthorizationCodePayload, email: Option<string>,
                   emailVerified: bool, foundAt: nat)
    requires code in w.hist.redeemed && w.hist.redeemed[code] == hid && code in w.hist.codes && w.hist.codes[code].payload == p
    requires w.hist.codes[code].at < foundAt < w.hist.steps
    ensures HandlerOK(cfg, w.hist, w.rows, w.now, hid, ExchangeSign(code, p, email, emailVerified, foundAt))
  {
  }

  lemma IndexIsCounted(cfg: Config, v: World, w: World, hid: Id, c: Choice)
    requires Begun(cfg, v, w, hid, c)
    ensures Index(w) < w.hist.steps && Index(w) == v.hist.steps
  {
    hide Core, HandlerOK;
  }

  lemma StepsExchangeFind(cfg: Config, v: World, w: World, hid: Id, c: Choice, code: Id, p: AuthorizationCodePayload)
    requires Begun(cfg, v, w, hid, c) && v.handlers[hid] == ExchangeFind(code, p)
    ensures Core(cfg, StepExchangeFind(w, hid, code, p))
  {
    hide Core, Begun, HandlerOK, Index;
    RedeemerKnows(cfg, v, w, hid, c);
    IssuedEarlier(cfg, v, w, hid, c, code);
    IndexIsCounted(cfg, v, w, hid, c);
    if p.authIdentityId in w.rows && w.rows[p.authIdentityId].status == Active && w.rows[p.authIdentityId].user == p.kisUserId {
      var row := w.rows[p.authIdentityId];
      SignerIsOK(cfg, w, hid, code, p, row.email, row.emailVerified, Index(w));
      KeepMove(cfg, w, hid, ExchangeSign(code, p, row.email, row.emailVerified, Index(w)));
    } else {
      FinishedIsOK(cfg, w, hid);
      KeepMove(cfg, w, hid, Finished);
    }
  }

  lemma StepsExchangeSign(cfg: Config, v: World, w: World, hid: Id, c: Choice, code: Id, p: AuthorizationCodePayload,
                          email: Option<string>, emailVerified: bool, foundAt: nat)
    requires Begun(cfg, v, w, hid, c) && v.handlers[hid] == ExchangeSign(code, p, email, emailVerified, foundAt)
    requires foundAt < v.hist.steps
    ensures Core(cfg, StepExchangeSign(w, hid, code, p, email, emailVerified, foundAt))
  {
    hide Core, Begun, HandlerOK, Index;
    RedeemerKnows(cfg, v, w, hid, c);
    IndexIsCounted(cfg, v, w, hid, c);
    var t := AuthToken(code, hid, p.kisUserId, p.clientId, p.purpose, p.authIdentityId, p.redirectUri, email, emailVerified, foundAt, Index(w));
    KeepToken(cfg, w, t);
    FinishedIsOK(cfg, WithToken(w, t), hid);
    KeepMove(cfg, WithToken(w, t), hid, Finished);
  }

  lemma TicketReadIs(cfg: Config, w: World, t: Id)
    requires Core(cfg, w) && Live(w.db, TicketKey(t), w.now)
    ensures t in w.hist.tickets && w.db[TicketKey(t)].value == TicketValue(w.hist.tickets[t].payload) && t !in w.hist.redeemedTickets
  {
    hide HandlersOK;
  }

  lemma TicketConsumeIs(w: World, hid: Id, t: Id, clientId: string, redirectUri: string, p: RegistrationTicketPayload)
    requires clientId != "" && redirectUri != "" && Live(w.db, TicketKey(t), w.now) && w.db[TicketKey(t)].value == TicketValue(p)
    ensures StepTicketConsume(w, hid, t, clientId, redirectUri)
            == Goto(WithRedeemedTicket(w.(db := Del(w.db, TicketKey(t))), t, hid), hid,
                    if p.clientId != clientId || p.redirectUri != redirectUri then Finished else TicketSign(t, p))
  {
    hide Del;
  }

  lemma TicketConsumeDead(w: World, hid: Id, t: Id, clientId: string, redirectUri: string)
    requires !Live(w.db, TicketKey(t), w.now) || clientId == "" || redirectUri == ""
    ensures StepTicketConsume(w, hid, t, clientId, redirectUri) == End(w, hid)
  {
  }

  lemma TicketRedeemerIsOK(cfg: Config, w: World, hid: Id, t: Id, p: RegistrationTicketPayload)
    requires t in w.hist.redeemedTickets && w.hist.redeemedTickets[t] == hid && t in w.hist.tickets && w.hist.tickets[t].payload == p
    ensures HandlerOK(cfg, w.hist, w.rows, w.now, hid, TicketSign(t, p))
  {
  }

  lemma StepsTicketConsume(cfg: Config, v: World, w: World, hid: Id, c: Choice, t: Id, clientId: string, redirectUri: string)
    requires Begun(cfg, v, w, hid, c) && v.handlers[hid] == TicketConsume(t, clientId, redirectUri)
    ensures Core(cfg, StepTicketConsume(w, hid, t, clientId, redirectUri))
  {
    hide Core, Live, Begun, StepTicketConsume, HandlerOK;
    BegunCore(cfg, v, w, hid, c);
    if clientId == "" || redirectUri == "" || !Live(w.db, TicketKey(t), w.now) {
      TicketConsumeDead(w, hid, t, clientId, redirectUri);
      FinishedIsOK(cfg, w, hid);
      KeepMove(cfg, w, hid, Finished);
    } else {
      TicketReadIs(cfg, w, t);
      var p := w.hist.tickets[t].payload;
      TicketConsumeIs(w, hid, t, clientId, redirectUri, p);
      KeepDelete(cfg, w, TicketKey(t));
      var w1 := w.(db := Del(w.db, TicketKey(t)));
      KeepRedeemedTicket(cfg, w1, t, hid);
      var w2 := WithRedeemedTicket(w1, t, hid);
      FinishedIsOK(cfg, w2, hid);
      TicketRedeemerIsOK(cfg, w2, hid, t, p);
      KeepMove(cfg, w2, hid, if p.clientId != clientId || p.redirectUri != redirectUri then Finished else TicketSign(t, p));
    }
  }

  lemma StepsTicketSign(cfg: Config, v: World, w: World, hid: Id, c: Choice, code: Id, p: RegistrationTicketPayload)
    requires Begun(cfg, v, w, hid, c) && v.handlers[hid] == TicketSign(code, p)
    ensures Core(cfg, StepTicketSign(w, hid, code, p))
  {
    hide Core;
    IssuedEarlier(cfg, v, w, hid, c, code);
    var t := RegistrationToken(code, hid, p.clientId, p.purpose, p.provider, p.providerSubject, p.providerEmail, p.providerEmailVerified,
                               p.partnerSlug, p.redirectUri, Index(w));
    KeepToken(cfg, w, t);
    KeepMove(cfg, WithToken(w, t), hid, Finished);
  }
}
