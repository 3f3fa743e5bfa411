/** The protocol machine with one handler moving alone, and what each of its steps does to the state
    the services share. */
module ServiceSteps {
  import opened Wrappers
  import opened Records
  import opened RedisKeyspace
  import opened IdentityTable
  import opened Registry
  import opened TenantKey
  import opened Protocol

  /** Everything one request draws or is told from outside. */
  datatype Randoms = Randoms(session: Id, state: nat, nonce: nat, verifier: Id, uuid: Id, challenge: Id, code: Id,
                             resolved: bool, verified: bool, who: Verified)

  /** What the step at program counter `h` is given. */
  function Pick(r: Randoms, h: Handler): Choice {
    var draw := if h.AuthorizeSave? then r.session
                else if h.StartGet? || h.StartResolve? then r.verifier
                else if h.LinkInsert? then r.uuid
                else if h.CreateChallenge? then r.challenge
                else r.code;
    Choice(draw, r.state, r.nonce, if h.CallbackVerify? then r.verified else r.resolved, r.who)
  }

  /** One step of `hid`; a handler that is not there does not move. */
  ghost function Moved(cfg: Config, w: World, hid: Id, r: Randoms): World {
    if hid in w.handlers then StepHandler(cfg, w, hid, Pick(r, w.handlers[hid])) else w
  }

  ghost function RunAlone(cfg: Config, w: World, hid: Id, r: Randoms, steps: nat): World
    decreases steps
  {
    if steps == 0 then w else RunAlone(cfg, Moved(cfg, w, hid, r), hid, r, steps - 1)
  }

  /** Moving alone, `hid` takes the world from `w` to `w'`. */
  ghost predicate Reaches(cfg: Config, w: World, hid: Id, r: Randoms, w': World) {
    exists n: nat :: RunAlone(cfg, w, hid, r, n) == w'
  }

  lemma {:induction false} RunOn(cfg: Config, w: World, hid: Id, r: Randoms, m: nat, n: nat)
    ensures RunAlone(cfg, RunAlone(cfg, w, hid, r, m), hid, r, n) == RunAlone(cfg, w, hid, r, m + n)
    decreases m
  {
    hide Moved;
    if m > 0 {
      RunOn(cfg, Moved(cfg, w, hid, r), hid, r, m - 1, n);
    }
  }

  lemma ReachesOn(cfg: Config, w: World, hid: Id, r: Randoms, w1: World, w2: World)
    requires Reaches(cfg, w, hid, r, w1) && Reaches(cfg, w1, hid, r, w2)
    ensures Reaches(cfg, w, hid, r, w2)
  {
    hide Moved, RunAlone;
    var m: nat :| RunAlone(cfg, w, hid, r, m) == w1;
    var n: nat :| RunAlone(cfg, w1, hid, r, n) == w2;
    RunOn(cfg, w, hid, r, m, n);
  }

  lemma ReachesOne(cfg: Config, w: World, hid: Id, r: Randoms)
    ensures Reaches(cfg, w, hid, r, Moved(cfg, w, hid, r))
  {
    hide Moved;
    assert RunAlone(cfg, w, hid, r, 1) == RunAlone(cfg, Moved(cfg, w, hid, r), hid, r, 0);
  }

  /** A finished handler moves no more: where it ends is the only such place. */
  lemma {:induction false} RunDone(cfg: Config, w: World, hid: Id, r: Randoms, steps: nat)
    requires hid in w.handlers && w.handlers[hid].Finished?
    ensures RunAlone(cfg, w, hid, r, steps) == w
  {
    if steps > 0 {
      RunDone(cfg, w, hid, r, steps - 1);
    }
  }

  lemma EndIsUnique(cfg: Config, w: World, hid: Id, r: Randoms, w1: World, w2: World)
    requires Reaches(cfg, w, hid, r, w1) && hid in w1.handlers && w1.handlers[hid].Finished?
    requires Reaches(cfg, w, hid, r, w2) && hid in w2.handlers && w2.handlers[hid].Finished?
    ensures w1 == w2
  {
    hide Moved, RunAlone;
    var m: nat :| RunAlone(cfg, w, hid, r, m) == w1;
    var n: nat :| RunAlone(cfg, w, hid, r, n) == w2;
    RunOn(cfg, w, hid, r, m, n);
    RunOn(cfg, w, hid, r, n, m);
    RunDone(cfg, w1, hid, r, n);
    RunDone(cfg, w2, hid, r, m);
  }

  // ---------------------------------------------------------------- the effect of a step

  /** After a step: the same clock, clients and drawn ids, no new token, and these contents. */
  ghost predicate Becomes(w: World, w': World, hid: Id, h: Handler, db: Keyspace, rows: Table, outputs: seq<(Id, Output)>) {
    && w'.now == w.now && w'.clients == w.clients && w'.db == db && w'.rows == rows && w'.hist.drawn == w.hist.drawn
    && w'.hist.outputs == outputs && w'.hist.tokens == w.hist.tokens && w'.handlers == w.handlers[hid := h]
  }

  lemma EffectConfirmGet(cfg: Config, w: World, hid: Id, r: Randoms, v: Visit, ch: Id)
    requires hid in w.handlers && w.handlers[hid] == ConfirmGet(v, ch)
    ensures var found := ReadChallenge(w, ch);
            Becomes(w, Moved(cfg, w, hid, r), hid,
                    if found.Some? && Confirmable(found.value) then MarkGet(v, ch, found.value) else Finished,
                    w.db, w.rows, w.hist.outputs)
  {
    hide Confirmable, ReadChallenge;
  }

  lemma EffectMarkGet(cfg: Config, w: World, hid: Id, r: Randoms, v: Visit, ch: Id, record: ChallengeRecord)
    requires hid in w.handlers && w.handlers[hid] == MarkGet(v, ch, record)
    ensures var found := ReadChallenge(w, ch);
            Becomes(w, Moved(cfg, w, hid, r), hid,
                    if found.Some? then MarkTtl(v, ch, record, found.value.(used := true)) else IssueCode(v, ch, record),
                    w.db, w.rows, w.hist.outputs)
  {
    hide ReadChallenge;
  }

  lemma EffectMarkTtl(cfg: Config, w: World, hid: Id, r: Randoms, v: Visit, ch: Id, record: ChallengeRecord, stored: ChallengeRecord)
    requires hid in w.handlers && w.handlers[hid] == MarkTtl(v, ch, record, stored)
    ensures var ttl := TtlReply(w.db, ChallengeKey(ch), w.now);
            Becomes(w, Moved(cfg, w, hid, r), hid,
                    if ttl <= 0 then IssueCode(v, ch, record) else MarkSave(v, ch, record, stored, ttl),
                    w.db, w.rows, w.hist.outputs)
  {
    hide TtlReply;
  }

  lemma EffectMarkSave(cfg: Config, w: World, hid: Id, r: Randoms, v: Visit, ch: Id, record: ChallengeRecord,
                       stored: ChallengeRecord, ttl: int)
    requires hid in w.handlers && w.handlers[hid] == MarkSave(v, ch, record, stored, ttl)
    ensures Becomes(w, Moved(cfg, w, hid, r), hid, IssueCode(v, ch, record),
                    SetEx(w.db, ChallengeKey(ch), ChallengeValue(stored), ttl, w.now), w.rows, w.hist.outputs)
  {
    hide SetEx;
  }

  lemma EffectIssueCode(cfg: Config, w: World, hid: Id, r: Randoms, v: Visit, ch: Id, record: ChallengeRecord)
    requires hid in w.handlers && w.handlers[hid] == IssueCode(v, ch, record)
    requires record.kisUserId.Some? && record.authIdentityId.Some?
    ensures Becomes(w, Moved(cfg, w, hid, r), hid, Finished,
                    SetEx(w.db, CodeKey(r.code), CodeValue(PayloadFor(v, record)), cfg.authCodeTtlSeconds, w.now), w.rows,
                    w.hist.outputs + [(v.sid, CodeOutput)])
  {
    hide SetEx, PayloadFor;
  }

  /** The steps of `markChallengeUsed`, with nothing in between. */
  lemma MarkedAlone(cfg: Config, w: World, hid: Id, r: Randoms, v: Visit, ch: Id, record: ChallengeRecord) returns (w': World)
    requires hid in w.handlers && w.handlers[hid] == MarkGet(v, ch, record)
    ensures Reaches(cfg, w, hid, r, w')
    ensures var found := ReadChallenge(w, ch);
            var ttl := TtlReply(w.db, ChallengeKey(ch), w.now);
            Becomes(w, w', hid, IssueCode(v, ch, record),
                    if found.None? || ttl <= 0 then w.db
                    else SetEx(w.db, ChallengeKey(ch), ChallengeValue(found.value.(used := true)), ttl, w.now),
                    w.rows, w.hist.outputs)
  {
    hide Moved, Reaches, ReadChallenge, TtlReply, SetEx;
    EffectMarkGet(cfg, w, hid, r, v, ch, record);
    ReachesOne(cfg, w, hid, r);
    w' := Moved(cfg, w, hid, r);
    if ReadChallenge(w, ch).Some? {
      var stored := ReadChallenge(w, ch).value.(used := true);
      var ttl := TtlReply(w.db, ChallengeKey(ch), w.now);
      var w1 := w';
      EffectMarkTtl(cfg, w1, hid, r, v, ch, record, stored);
      ReachesOne(cfg, w1, hid, r);
      w' := Moved(cfg, w1, hid, r);
      ReachesOn(cfg, w, hid, r, w1, w');
      if ttl > 0 {
        var w2 := w';
        EffectMarkSave(cfg, w2, hid, r, v, ch, record, stored, ttl);
        ReachesOne(cfg, w2, hid, r);
        w' := Moved(cfg, w2, hid, r);
        ReachesOn(cfg, w, hid, r, w2, w');
      }
    }
  }

  lemma EffectTouch(cfg: Config, w: World, hid: Id, r: Randoms, v: Visit, row: Id, user: string)
    requires hid in w.handlers && w.handlers[hid] == Touch(v, row, user)
    ensures Becomes(w, Moved(cfg, w, hid, r), hid, CreateChallenge(v, RecordFor(cfg, v, user, row)), w.db, w.rows, w.hist.outputs)
  {
    hide RecordFor;
  }

  lemma EffectCreateChallenge(cfg: Config, w: World, hid: Id, r: Randoms, v: Visit, record: ChallengeRecord)
    requires hid in w.handlers && w.handlers[hid] == CreateChallenge(v, record)
    ensures Becomes(w, Moved(cfg, w, hid, r), hid,
                    if v.session.purpose == "link" then ConfirmGet(v, r.challenge) else ReturnClose(v, r.challenge),
                    SetEx(w.db, ChallengeKey(r.challenge), ChallengeValue(record), cfg.challengeTtlSeconds, w.now), w.rows, w.hist.outputs)
  {
    hide SetEx;
  }

  lemma EffectReturnClose(cfg: Config, w: World, hid: Id, r: Randoms, v: Visit, ch: Id)
    requires hid in w.handlers && w.handlers[hid] == ReturnClose(v, ch)
    ensures Becomes(w, Moved(cfg, w, hid, r), hid, ConfirmGet(v, ch), Del(w.db, SessionKey(v.sid)), w.rows, w.hist.outputs)
  {
    hide Del;
  }

  lemma EffectCloseAndEnd(cfg: Config, w: World, hid: Id, r: Randoms, sid: Id, redirect: bool)
    requires hid in w.handlers && w.handlers[hid] == CloseAndEnd(sid, redirect)
    ensures Becomes(w, Moved(cfg, w, hid, r), hid, Finished, Del(w.db, SessionKey(sid)), w.rows,
                    w.hist.outputs + (if redirect then [(sid, ErrorOutput)] else []))
  {
    hide Del;
  }

  lemma EffectRegisterClose(cfg: Config, w: World, hid: Id, r: Randoms, v: Visit, known: bool)
    requires hid in w.handlers && w.handlers[hid] == RegisterClose(v, known)
    ensures Becomes(w, Moved(cfg, w, hid, r), hid, if known then Finished else RegisterIssue(v), Del(w.db, SessionKey(v.sid)), w.rows,
                    w.hist.outputs + (if known then [(v.sid, ErrorOutput)] else []))
  {
    hide Del;
  }

  lemma EffectRegisterIssue(cfg: Config, w: World, hid: Id, r: Randoms, v: Visit)
    requires hid in w.handlers && w.handlers[hid] == RegisterIssue(v)
    ensures Becomes(w, Moved(cfg, w, hid, r), hid, Finished,
                    SetEx(w.db, TicketKey(r.code), TicketValue(TicketFor(v)), cfg.authCodeTtlSeconds, w.now), w.rows,
                    w.hist.outputs + [(v.sid, TicketOutput)])
  {
    hide SetEx, TicketFor;
  }

  lemma EffectFindIdentity(cfg: Config, w: World, hid: Id, r: Randoms, v: Visit)
    requires hid in w.handlers && w.handlers[hid] == FindIdentity(v)
    ensures var found := FindByKey(w.rows, ProviderOf(v.route), SubjectOf(v.route, v.who.sub));
            Becomes(w, Moved(cfg, w, hid, r), hid,
                    if v.session.purpose == "registration" then RegisterClose(v, found.Some?)
                    else if found.None? then CloseAndEnd(v.sid, true)
                    else Touch(v, found.value, w.rows[found.value].user),
                    w.db, w.rows, w.hist.outputs)
  {
    hide FindByKey, SubjectOf, ProviderOf;
  }

  /** `Answer` tells the caller and, for a callback, goes on to close the session. */
  lemma AnswerBecomes(w: World, hid: Id, src: LinkSource, a: LinkArgs, result: LinkResult)
    ensures Becomes(w, Answer(w, hid, src, a, result), hid, if src.FromCallback? then LinkClose(src.visit, result) else Finished,
                    w.db, w.rows, w.hist.outputs)
  {
  }

  lemma EffectLinkSelect(cfg: Config, w: World, hid: Id, r: Randoms, src: LinkSource, a: LinkArgs)
    requires hid in w.handlers && w.handlers[hid] == LinkSelect(src, a)
    ensures var found := FindByKey(w.rows, a.provider, a.subject);
            Becomes(w, Moved(cfg, w, hid, r), hid,
                    if found.None? then LinkInsert(src, a)
                    else if w.rows[found.value].user == a.user then LinkUpdate(src, a, found.value)
                    else if src.FromCallback? then LinkClose(src.visit, AlreadyLinked) else Finished,
                    w.db, w.rows, w.hist.outputs)
  {
    hide FindByKey, Answer;
    AnswerBecomes(w, hid, src, a, AlreadyLinked);
  }

  lemma EffectLinkUpdate(cfg: Config, w: World, hid: Id, r: Randoms, src: LinkSource, a: LinkArgs, id: Id)
    requires hid in w.handlers && w.handlers[hid] == LinkUpdate(src, a, id) && id in w.rows
    ensures Becomes(w, Moved(cfg, w, hid, r), hid, if src.FromCallback? then LinkClose(src.visit, Linked(id)) else Finished,
                    w.db, Refreshed(w.rows, id, a), w.hist.outputs)
  {
    hide Refreshed, Answer;
    AnswerBecomes(w.(rows := Refreshed(w.rows, id, a)), hid, src, a, Linked(id));
  }

  lemma EffectLinkInsert(cfg: Config, w: World, hid: Id, r: Randoms, src: LinkSource, a: LinkArgs)
    requires hid in w.handlers && w.handlers[hid] == LinkInsert(src, a)
    ensures var result := if Conflicts(w.rows, a) then AlreadyLinked else Linked(r.uuid);
            Becomes(w, Moved(cfg, w, hid, r), hid, if src.FromCallback? then LinkClose(src.visit, result) else Finished,
                    w.db, if Conflicts(w.rows, a) then w.rows else Inserted(w.rows, r.uuid, a), w.hist.outputs)
  {
    hide Inserted, Answer, Conflicts;
    AnswerBecomes(w, hid, src, a, AlreadyLinked);
    AnswerBecomes(WithInsert(w, r.uuid, a, if src.FromServer? then ByServer else ByCallback(hid)), hid, src, a, Linked(r.uuid));
  }

  /** The steps of `link`, with nothing in between. */
  lemma LinkedAlone(cfg: Config, w: World, hid: Id, r: Randoms, src: LinkSource, a: LinkArgs) returns (w': World)
    requires hid in w.handlers && w.handlers[hid] == LinkSelect(src, a)
    ensures Reaches(cfg, w, hid, r, w')
    ensures var (result, rows) := LinkAlone(w.rows, a, r.uuid);
            Becomes(w, w', hid, if src.FromCallback? then LinkClose(src.visit, result) else Finished, w.db, rows, w.hist.outputs)
  {
    hide Moved, Reaches, Refreshed, Inserted, Conflicts;
    EffectLinkSelect(cfg, w, hid, r, src, a);
    ReachesOne(cfg, w, hid, r);
    w' := Moved(cfg, w, hid, r);
    var found := FindByKey(w.rows, a.provider, a.subject);
    if found.None? {
      var w1 := w';
      EffectLinkInsert(cfg, w1, hid, r, src, a);
      ReachesOne(cfg, w1, hid, r);
      w' := Moved(cfg, w1, hid, r);
      ReachesOn(cfg, w, hid, r, w1, w');
    } else if w.rows[found.value].user == a.user {
      var w1 := w';
      EffectLinkUpdate(cfg, w1, hid, r, src, a, found.value);
      ReachesOne(cfg, w1, hid, r);
      w' := Moved(cfg, w1, hid, r);
      ReachesOn(cfg, w, hid, r, w1, w');
    }
  }

  lemma EffectLinkClose(cfg: Config, w: World, hid: Id, r: Randoms, v: Visit, result: LinkResult)
    requires hid in w.handlers && w.handlers[hid] == LinkClose(v, result) && v.session.linkKisUserId.Some?
    ensures Becomes(w, Moved(cfg, w, hid, r), hid,
                    match result
                    case AlreadyLinked => Finished
                    case Linked(id) => CreateChallenge(v, RecordFor(cfg, v, v.session.linkKisUserId.value, id)),
                    Del(w.db, SessionKey(v.sid)), w.rows,
                    w.hist.outputs + (if result.AlreadyLinked? then [(v.sid, ErrorOutput)] else []))
  {
    hide Del, RecordFor;
  }

  // ---------------------------------------------------------------- authorize and start

  lemma EffectAuthorizeLookup(cfg: Config, w: World, hid: Id, r: Randoms, q: AuthorizeRequest)
    requires hid in w.handlers && w.handlers[hid] == AuthorizeLookup(q)
    ensures var passes := Permits(w.clients, q.clientId, q.redirectUri, q.purpose) && q.clientState != ""
                          && (q.partnerSlug.None? || IsSlug(q.partnerSlug.value));
            Becomes(w, Moved(cfg, w, hid, r), hid,
                    if !passes then Finished
                    else if q.purpose != "link" then AuthorizeSave(q, None)
                    else AuthorizeCheck(q),
                    w.db, w.rows, w.hist.outputs)
  {
    hide Permits, IsSlug;
    if !Permits(w.clients, q.clientId, q.redirectUri, q.purpose) || q.clientState == "" {
    } else if q.partnerSlug.Some? && !IsSlug(q.partnerSlug.value) {
    } else if q.purpose != "link" {
    } else {
    }
  }

  lemma EffectAuthorizeCheck(cfg: Config, w: World, hid: Id, r: Randoms, q: AuthorizeRequest)
    requires hid in w.handlers && w.handlers[hid] == AuthorizeCheck(q)
    ensures Becomes(w, Moved(cfg, w, hid, r), hid,
                    if q.ticket.None? || q.ticket.value.exp <= w.now / 1000 then Finished
                    else AuthorizeClaim(q, q.ticket.value, w.now / 1000),
                    w.db, w.rows, w.hist.outputs)
  {
  }

  /** The lookup and the checks behind it, with nothing in between. */
  lemma CheckedAlone(cfg: Config, w: World, hid: Id, r: Randoms, q: AuthorizeRequest) returns (w': World)
    requires hid in w.handlers && w.handlers[hid] == AuthorizeLookup(q)
    ensures Reaches(cfg, w, hid, r, w')
    ensures var passes := Permits(w.clients, q.clientId, q.redirectUri, q.purpose) && q.clientState != ""
                          && (q.partnerSlug.None? || IsSlug(q.partnerSlug.value));
            Becomes(w, w', hid,
                    if !passes then Finished
                    else if q.purpose != "link" then AuthorizeSave(q, None)
                    else if q.ticket.None? || q.ticket.value.exp <= w.now / 1000 then Finished
                    else AuthorizeClaim(q, q.ticket.value, w.now / 1000),
                    w.db, w.rows, w.hist.outputs)
  {
    hide Moved, Reaches, Permits, IsSlug;
    EffectAuthorizeLookup(cfg, w, hid, r, q);
    ReachesOne(cfg, w, hid, r);
    w' := Moved(cfg, w, hid, r);
    if w'.handlers[hid] == AuthorizeCheck(q) {
      var w1 := w';
      EffectAuthorizeCheck(cfg, w1, hid, r, q);
      ReachesOne(cfg, w1, hid, r);
      w' := Moved(cfg, w1, hid, r);
      ReachesOn(cfg, w, hid, r, w1, w');
    }
  }

  lemma EffectAuthorizeClaim(cfg: Config, w: World, hid: Id, r: Randoms, q: AuthorizeRequest, t: LinkTicket, readAt: int)
    requires hid in w.handlers && w.handlers[hid] == AuthorizeClaim(q, t, readAt)
    ensures var taken := Live(w.db, LinkNonceKey(t.nonce), w.now);
            var ttl := if t.exp - readAt > 1 then t.exp - readAt else 1;
            Becomes(w, Moved(cfg, w, hid, r), hid, if taken then Finished else AuthorizeSave(q, NonEmpty(t.kisUserId)),
                    if taken then w.db else SetEx(w.db, LinkNonceKey(t.nonce), Claimed, ttl, w.now), w.rows, w.hist.outputs)
  {
    hide Live, SetEx, NonEmpty;
  }

  lemma EffectAuthorizeSave(cfg: Config, w: World, hid: Id, r: Randoms, q: AuthorizeRequest, linkUser: Option<string>)
    requires hid in w.handlers && w.handlers[hid] == AuthorizeSave(q, linkUser)
    ensures Becomes(w, Moved(cfg, w, hid, r), hid, Finished,
                    SetEx(w.db, SessionKey(r.session),
                          SessionValue(OAuthSession(q.clientId, q.redirectUri, q.purpose, r.state, r.nonce, q.clientState, None, linkUser, q.partnerSlug)),
                          SESSION_TTL_SECONDS, w.now),
                    w.rows, w.hist.outputs)
  {
    hide SetEx;
  }

  lemma EffectStartGet(cfg: Config, w: World, hid: Id, r: Randoms, route: Route, sid: Id)
    requires hid in w.handlers && w.handlers[hid] == StartGet(route, sid)
    ensures var found := ReadSession(w, sid);
            Becomes(w, Moved(cfg, w, hid, r), hid,
                    if found.None? || !RouteServes(route, found.value) then Finished
                    else if route.Enterprise? then StartResolve(sid, found.value)
                    else StartTtl(sid, found.value.(codeVerifier := Some(r.verifier))),
                    w.db, w.rows, w.hist.outputs)
  {
    hide ReadSession, RouteServes;
  }

  lemma EffectStartResolve(cfg: Config, w: World, hid: Id, r: Randoms, sid: Id, s: OAuthSession)
    requires hid in w.handlers && w.handlers[hid] == StartResolve(sid, s)
    ensures Becomes(w, Moved(cfg, w, hid, r), hid,
                    if r.resolved then StartTtl(sid, s.(codeVerifier := Some(r.verifier))) else CloseAndEnd(sid, false),
                    w.db, w.rows, w.hist.outputs)
  {
  }

  lemma EffectStartTtl(cfg: Config, w: World, hid: Id, r: Randoms, sid: Id, s: OAuthSession)
    requires hid in w.handlers && w.handlers[hid] == StartTtl(sid, s)
    ensures Becomes(w, Moved(cfg, w, hid, r), hid, StartSave(sid, s, TtlReply(w.db, SessionKey(sid), w.now)), w.db, w.rows, w.hist.outputs)
  {
    hide TtlReply;
  }

  lemma EffectStartSave(cfg: Config, w: World, hid: Id, r: Randoms, sid: Id, s: OAuthSession, ttl: int)
    requires hid in w.handlers && w.handlers[hid] == StartSave(sid, s, ttl)
    ensures Becomes(w, Moved(cfg, w, hid, r), hid, Finished,
                    SetEx(w.db, SessionKey(sid), SessionValue(s), if ttl > 0 then ttl else SESSION_TTL_SECONDS, w.now), w.rows, w.hist.outputs)
  {
    hide SetEx;
  }

  /** The steps of `update`, with nothing in between. */
  lemma UpdatedAlone(cfg: Config, w: World, hid: Id, r: Randoms, sid: Id, s: OAuthSession) returns (w': World)
    requires hid in w.handlers && w.handlers[hid] == StartTtl(sid, s)
    ensures Reaches(cfg, w, hid, r, w')
    ensures var ttl := TtlReply(w.db, SessionKey(sid), w.now);
            Becomes(w, w', hid, Finished,
                    SetEx(w.db, SessionKey(sid), SessionValue(s), if ttl > 0 then ttl else SESSION_TTL_SECONDS, w.now), w.rows, w.hist.outputs)
  {
    hide Moved, Reaches, TtlReply, SetEx;
    EffectStartTtl(cfg, w, hid, r, sid, s);
    ReachesOne(cfg, w, hid, r);
    var w1 := Moved(cfg, w, hid, r);
    EffectStartSave(cfg, w1, hid, r, sid, s, TtlReply(w.db, SessionKey(sid), w.now));
    ReachesOne(cfg, w1, hid, r);
    w' := Moved(cfg, w1, hid, r);
    ReachesOn(cfg, w, hid, r, w1, w');
  }

  // ---------------------------------------------------------------- callback

  lemma EffectCallbackGet(cfg: Config, w: World, hid: Id, r: Randoms, route: Route, sid: Id, cb: CallbackRequest)
    requires hid in w.handlers && w.handlers[hid] == CallbackGet(route, sid, cb)
    ensures var found := ReadSession(w, sid);
            Becomes(w, Moved(cfg, w, hid, r), hid,
                    if found.None? || !RouteServes(route, found.value) || cb.state != Some(found.value.state) then Finished
                    else if cb.hasError then CloseAndEnd(sid, true)
                    else if !cb.hasCode || found.value.codeVerifier.None? then Finished
                    else if route.Enterprise? then CallbackResolve(route, sid, found.value)
                    else CallbackVerify(route, sid, found.value),
                    w.db, w.rows, w.hist.outputs)
  {
    hide ReadSession, RouteServes;
  }

  lemma EffectCallbackResolve(cfg: Config, w: World, hid: Id, r: Randoms, route: Route, sid: Id, s: OAuthSession)
    requires hid in w.handlers && w.handlers[hid] == CallbackResolve(route, sid, s)
    ensures Becomes(w, Moved(cfg, w, hid, r), hid, if r.resolved then CallbackVerify(route, sid, s) else CloseAndEnd(sid, false),
                    w.db, w.rows, w.hist.outputs)
  {
  }

  lemma EffectCallbackVerify(cfg: Config, w: World, hid: Id, r: Randoms, route: Route, sid: Id, s: OAuthSession)
    requires hid in w.handlers && w.handlers[hid] == CallbackVerify(route, sid, s)
    ensures var v := Visit(route, sid, s, r.who);
            Becomes(w, Moved(cfg, w, hid, r), hid,
                    if !r.verified || r.who.sub == "" || s.codeVerifier.None? then CloseAndEnd(sid, true)
                    else if s.purpose != "link" then FindIdentity(v)
                    else if s.linkKisUserId.None? then CloseAndEnd(sid, false)
                    else LinkSelect(FromCallback(v), ArgsOf(v)),
                    w.db, w.rows, w.hist.outputs)
  {
    hide ArgsOf, StepCallbackVerify;
    VerifyBecomes(w, hid, Pick(r, w.handlers[hid]), route, sid, s);
  }

  lemma VerifyBecomes(w: World, hid: Id, c: Choice, route: Route, sid: Id, s: OAuthSession)
    ensures var v := Visit(route, sid, s, c.who);
            Becomes(w, StepCallbackVerify(w, hid, route, sid, s, c), hid,
                    if !c.ok || c.who.sub == "" || s.codeVerifier.None? then CloseAndEnd(sid, true)
                    else if s.purpose != "link" then FindIdentity(v)
                    else if s.linkKisUserId.None? then CloseAndEnd(sid, false)
                    else LinkSelect(FromCallback(v), ArgsOf(v)),
                    w.db, w.rows, w.hist.outputs)
  {
    hide ArgsOf, Index;
    if !c.ok || c.who.sub == "" || s.codeVerifier.None? {
    } else if s.purpose != "link" {
    } else if s.linkKisUserId.None? {
    } else {
    }
  }

  // ---------------------------------------------------------------- exchanges

  /** The code goes to its redeemer or to nobody. */
  lemma EffectExchangeConsume(cfg: Config, w: World, hid: Id, r: Randoms, code: Id, clientId: string, redirectUri: string)
    requires hid in w.handlers && w.handlers[hid] == ExchangeConsume(code, clientId, redirectUri) && clientId != "" && redirectUri != ""
    ensures var found := Get(w.db, CodeKey(code), w.now);
            Becomes(w, Moved(cfg, w, hid, r), hid,
                    if found.Some? && found.value.CodeValue? && found.value.code.clientId == clientId && found.value.code.redirectUri == redirectUri
                    then ExchangeFind(code, found.value.code) else Finished,
                    if found.Some? && found.value.CodeValue? then Consumed(w.db, CodeKey(code), w.now) else w.db, w.rows, w.hist.outputs)
  {
    hide Get, Consumed;
    var found := Get(w.db, CodeKey(code), w.now);
    if found.Some? && found.value.CodeValue? {
      var p := found.value.code;
      if p.clientId != clientId || p.redirectUri != redirectUri {
      } else {
      }
    } else {
    }
  }

  lemma EffectExchangeFind(cfg: Config, w: World, hid: Id, r: Randoms, code: Id, p: AuthorizationCodePayload)
    requires hid in w.handlers && w.handlers[hid] == ExchangeFind(code, p)
    ensures var ok := p.authIdentityId in w.rows && w.rows[p.authIdentityId].status == Active && w.rows[p.authIdentityId].user == p.kisUserId;
            Becomes(w, Moved(cfg, w, hid, r), hid,
                    if ok then ExchangeSign(code, p, w.rows[p.authIdentityId].email, w.rows[p.authIdentityId].emailVerified, Index(w)) else Finished,
                    w.db, w.rows, w.hist.outputs)
  {
    hide Index;
    if p.authIdentityId !in w.rows {
    } else if w.rows[p.authIdentityId].status != Active || w.rows[p.authIdentityId].user != p.kisUserId {
    } else {
    }
  }

  /** The new state up to the token, which is the last. */
  ghost predicate Mints(w: World, w': World, hid: Id, t: Token) {
    && w'.now == w.now && w'.clients == w.clients && w'.db == w.db && w'.rows == w.rows && w'.hist.outputs == w.hist.outputs
    && w'.hist.tokens == w.hist.tokens + [t] && hid in w'.handlers && w'.handlers[hid] == Finished
  }

  lemma EffectExchangeSign(cfg: Config, w: World, hid: Id, r: Randoms, code: Id, p: AuthorizationCodePayload,
                           email: Option<string>, emailVerified: bool, foundAt: nat)
    requires hid in w.handlers && w.handlers[hid] == ExchangeSign(code, p, email, emailVerified, foundAt)
    ensures Mints(w, Moved(cfg, w, hid, r), hid,
                  AuthToken(code, hid, p.kisUserId, p.clientId, p.purpose, p.authIdentityId, p.redirectUri, email, emailVerified, foundAt, Index(w)))
  {
  }

  lemma EffectTicketConsume(cfg: Config, w: World, hid: Id, r: Randoms, code: Id, clientId: string, redirectUri: string)
    requires hid in w.handlers && w.handlers[hid] == TicketConsume(code, clientId, redirectUri) && clientId != "" && redirectUri != ""
    ensures var found := Get(w.db, TicketKey(code), w.now);
            Becomes(w, Moved(cfg, w, hid, r), hid,
                    if found.Some? && found.value.TicketValue? && found.value.ticket.clientId == clientId && found.value.ticket.redirectUri == redirectUri
                    then TicketSign(code, found.value.ticket) else Finished,
                    if found.Some? && found.value.TicketValue? then Consumed(w.db, TicketKey(code), w.now) else w.db, w.rows, w.hist.outputs)
  {
    hide Get, Consumed;
    var found := Get(w.db, TicketKey(code), w.now);
    if found.Some? && found.value.TicketValue? {
      var p := found.value.ticket;
      if p.clientId != clientId || p.redirectUri != redirectUri {
      } else {
      }
    } else {
    }
  }

  lemma EffectTicketSign(cfg: Config, w: World, hid: Id, r: Randoms, code: Id, p: RegistrationTicketPayload)
    requires hid in w.handlers && w.handlers[hid] == TicketSign(code, p)
    ensures Mints(w, Moved(cfg, w, hid, r), hid,
                  RegistrationToken(code, hid, p.clientId, p.purpose, p.provider, p.providerSubject, p.providerEmail, p.providerEmailVerified,
                                    p.partnerSlug, p.redirectUri, Index(w)))
  {
  }
}
