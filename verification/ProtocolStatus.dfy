/** Where the status of an identity matters: only where the exchange reads it. */
module ProtocolStatus {
  import opened Wrappers
  import opened Records
  import opened RedisKeyspace
  import opened IdentityTable
  import opened Registry
  import opened TenantKey
  import opened Protocol
  import opened ProtocolInvariant
  import opened ProtocolChanges
  import opened ProtocolPast
  import opened ProtocolRuns
  import opened ProtocolTraces
  import opened ProtocolTheorems
  import opened ProtocolGuards

  /** The same rows, up to their statuses. */
  ghost predicate SameRows(t: Table, u: Table) {
    && (forall i {:trigger i in t} {:trigger i in u} :: i in t <==> i in u)
    && (forall i {:trigger t[i]} {:trigger u[i]} :: i in t ==> u[i] == t[i].(status := u[i].status))
  }

  /** The same world, up to the statuses of its rows. */
  ghost predicate SameBut(w: World, v: World) {
    v == w.(rows := v.rows) && SameRows(w.rows, v.rows)
  }

  // ---------------------------------------------------------------- most steps never see the table

  lemma SameReads(w: World, t: Table, sid: Id, ch: Id)
    ensures ReadSession(w.(rows := t), sid) == ReadSession(w, sid)
    ensures ReadChallenge(w.(rows := t), ch) == ReadChallenge(w, ch)
  {
  }

  lemma LookupBlind(w: World, t: Table, hid: Id, q: AuthorizeRequest)
    ensures StepAuthorizeLookup(w.(rows := t), hid, q) == StepAuthorizeLookup(w, hid, q).(rows := t)
  {
    hide Permits, IsSlug;
    if !Permits(w.clients, q.clientId, q.redirectUri, q.purpose) || q.clientState == "" {
    } else if q.partnerSlug.Some? && !IsSlug(q.partnerSlug.value) {
    } else {
    }
  }

  lemma ClaimBlind(w: World, t: Table, hid: Id, q: AuthorizeRequest, ticket: LinkTicket, readAt: int)
    ensures StepAuthorizeClaim(w.(rows := t), hid, q, ticket, readAt) == StepAuthorizeClaim(w, hid, q, ticket, readAt).(rows := t)
  {
    hide SetEx, NonEmpty, Live;
  }

  lemma SaveBlind(w: World, t: Table, hid: Id, q: AuthorizeRequest, linkUser: Option<string>, c: Choice)
    ensures StepAuthorizeSave(w.(rows := t), hid, q, linkUser, c) == StepAuthorizeSave(w, hid, q, linkUser, c).(rows := t)
  {
    hide SetEx, NewSession;
  }

  lemma StartGetBlind(w: World, t: Table, hid: Id, route: Route, sid: Id, c: Choice)
    ensures StepStartGet(w.(rows := t), hid, route, sid, c) == StepStartGet(w, hid, route, sid, c).(rows := t)
  {
    hide RouteServes, ReadSession;
    SameReads(w, t, sid, 0);
  }

  lemma ReadBlind(w: World, t: Table, hid: Id, route: Route, sid: Id, cb: CallbackRequest)
    ensures StepCallbackGet(w.(rows := t), hid, route, sid, cb) == StepCallbackGet(w, hid, route, sid, cb).(rows := t)
  {
    hide RouteServes, ReadSession;
    SameReads(w, t, sid, 0);
    var found := ReadSession(w, sid);
    if found.None? {
    } else if !RouteServes(route, found.value) || cb.state != Some(found.value.state) {
    } else if cb.hasError {
    } else if !cb.hasCode || found.value.codeVerifier.None? {
    } else {
    }
  }

  lemma VerifyBlind(w: World, t: Table, hid: Id, route: Route, sid: Id, s: OAuthSession, c: Choice)
    ensures StepCallbackVerify(w.(rows := t), hid, route, sid, s, c) == StepCallbackVerify(w, hid, route, sid, s, c).(rows := t)
  {
    hide ArgsOf;
    if !c.ok || c.who.sub == "" || s.codeVerifier.None? {
    } else if s.purpose != "link" {
    } else if s.linkKisUserId.None? {
    } else {
    }
  }

  lemma LinkCloseBlind(cfg: Config, w: World, t: Table, hid: Id, v: Visit, r: LinkResult)
    ensures StepLinkClose(cfg, w.(rows := t), hid, v, r) == StepLinkClose(cfg, w, hid, v, r).(rows := t)
  {
    hide Del, RecordFor;
  }

  lemma RegisterIssueBlind(cfg: Config, w: World, t: Table, hid: Id, v: Visit, c: Choice)
    ensures StepRegisterIssue(cfg, w.(rows := t), hid, v, c) == StepRegisterIssue(cfg, w, hid, v, c).(rows := t)
  {
    hide SetEx, TicketFor;
  }

  lemma CreateChallengeBlind(cfg: Config, w: World, t: Table, hid: Id, v: Visit, r: ChallengeRecord, c: Choice)
    ensures StepCreateChallenge(cfg, w.(rows := t), hid, v, r, c) == StepCreateChallenge(cfg, w, hid, v, r, c).(rows := t)
  {
    hide SetEx;
  }

  lemma ConfirmBlind(w: World, t: Table, hid: Id, v: Visit, ch: Id)
    ensures StepConfirmGet(w.(rows := t), hid, v, ch) == StepConfirmGet(w, hid, v, ch).(rows := t)
  {
    hide Confirmable, ReadChallenge;
    SameReads(w, t, 0, ch);
  }

  lemma MarkBlind(w: World, t: Table, hid: Id, v: Visit, ch: Id, r: ChallengeRecord)
    ensures StepMarkGet(w.(rows := t), hid, v, ch, r) == StepMarkGet(w, hid, v, ch, r).(rows := t)
  {
    hide ReadChallenge;
    SameReads(w, t, 0, ch);
  }

  lemma IssueBlind(cfg: Config, w: World, t: Table, hid: Id, v: Visit, ch: Id, r: ChallengeRecord, c: Choice)
    ensures StepIssueCode(cfg, w.(rows := t), hid, v, ch, r, c) == StepIssueCode(cfg, w, hid, v, ch, r, c).(rows := t)
  {
    hide SetEx, PayloadFor;
  }

  lemma ConsumeBlind(w: World, t: Table, hid: Id, code: Id, clientId: string, redirectUri: string)
    ensures StepExchangeConsume(w.(rows := t), hid, code, clientId, redirectUri)
            == StepExchangeConsume(w, hid, code, clientId, redirectUri).(rows := t)
  {
    hide Get, Consumed;
    var found := Get(w.db, CodeKey(code), w.now);
    if clientId == "" || redirectUri == "" {
    } else if found.Some? && found.value.CodeValue? {
      if found.value.code.clientId != clientId || found.value.code.redirectUri != redirectUri {
      } else {
      }
    } else {
    }
  }

  lemma ConsumeTicketBlind(w: World, t: Table, hid: Id, code: Id, clientId: string, redirectUri: string)
    ensures StepTicketConsume(w.(rows := t), hid, code, clientId, redirectUri)
            == StepTicketConsume(w, hid, code, clientId, redirectUri).(rows := t)
  {
    hide Get, Consumed;
    var found := Get(w.db, TicketKey(code), w.now);
    if clientId == "" || redirectUri == "" {
    } else if found.Some? && found.value.TicketValue? {
      if found.value.ticket.clientId != clientId || found.value.ticket.redirectUri != redirectUri {
      } else {
      }
    } else {
    }
  }

  predicate ReadsRows(h: Handler) {
    h.FindIdentity? || h.LinkSelect? || h.LinkUpdate? || h.LinkInsert? || h.ExchangeFind?
  }

  lemma FirstBlind(cfg: Config, w: World, t: Table, hid: Id, c: Choice)
    requires hid in w.handlers && !ReadsRows(w.handlers[hid]) && Stage(w.handlers[hid]) == 1
    ensures StepHandler(cfg, w.(rows := t), hid, c) == StepHandler(cfg, w, hid, c).(rows := t)
  {
    match w.handlers[hid]
    case AuthorizeCheck(q) =>
    case StartResolve(sid, s) =>
    case CallbackResolve(route, sid, s) =>
    case TicketSign(code, p) =>
  }

  lemma EarlyBlind(cfg: Config, w: World, t: Table, hid: Id, c: Choice)
    requires hid in w.handlers && !ReadsRows(w.handlers[hid]) && 2 <= Stage(w.handlers[hid]) < 4
    ensures StepHandler(cfg, w.(rows := t), hid, c) == StepHandler(cfg, w, hid, c).(rows := t)
  {
    hide StepAuthorizeClaim, StepAuthorizeSave, StepCallbackVerify, TtlReply, SetEx;
    match w.handlers[hid]
    case AuthorizeClaim(q, ticket, readAt) => ClaimBlind(w, t, hid, q, ticket, readAt);
    case AuthorizeSave(q, linkUser) => SaveBlind(w, t, hid, q, linkUser, c);
    case CallbackVerify(route, sid, s) => VerifyBlind(w, t, hid, route, sid, s, c);
    case _ =>
  }

  lemma EntryBlind(cfg: Config, w: World, t: Table, hid: Id, c: Choice)
    requires hid in w.handlers && Stage(w.handlers[hid]) == 0
    ensures StepHandler(cfg, w.(rows := t), hid, c) == StepHandler(cfg, w, hid, c).(rows := t)
  {
    hide StepAuthorizeLookup, StepStartGet, StepCallbackGet, StepExchangeConsume, StepTicketConsume;
    match w.handlers[hid]
    case AuthorizeLookup(q) => LookupBlind(w, t, hid, q);
    case StartGet(route, sid) => StartGetBlind(w, t, hid, route, sid, c);
    case CallbackGet(route, sid, cb) => ReadBlind(w, t, hid, route, sid, cb);
    case ExchangeConsume(code, clientId, redirectUri) => ConsumeBlind(w, t, hid, code, clientId, redirectUri);
    case TicketConsume(code, clientId, redirectUri) => ConsumeTicketBlind(w, t, hid, code, clientId, redirectUri);
  }

  lemma LateBlind(cfg: Config, w: World, t: Table, hid: Id, c: Choice)
    requires hid in w.handlers && !ReadsRows(w.handlers[hid]) && Stage(w.handlers[hid]) >= 4
    ensures StepHandler(cfg, w.(rows := t), hid, c) == StepHandler(cfg, w, hid, c).(rows := t)
  {
    hide StepLinkClose, StepRegisterIssue, StepCreateChallenge, StepConfirmGet, StepMarkGet, StepIssueCode, TtlReply, SetEx, Del,
         RecordFor;
    match w.handlers[hid]
    case LinkClose(v, r) => LinkCloseBlind(cfg, w, t, hid, v, r);
    case RegisterIssue(v) => RegisterIssueBlind(cfg, w, t, hid, v, c);
    case CreateChallenge(v, r) => CreateChallengeBlind(cfg, w, t, hid, v, r, c);
    case ConfirmGet(v, ch) => ConfirmBlind(w, t, hid, v, ch);
    case MarkGet(v, ch, r) => MarkBlind(w, t, hid, v, ch, r);
    case IssueCode(v, ch, r) => IssueBlind(cfg, w, t, hid, v, ch, r, c);
    case _ =>
  }

  // ---------------------------------------------------------------- the steps that read it ignore the status

  lemma SameFind(t: Table, u: Table, a: LinkArgs)
    requires SameRows(t, u) && Unique(t)
    ensures FindByKey(u, a.provider, a.subject) == FindByKey(t, a.provider, a.subject)
    ensures Conflicts(u, a) <==> Conflicts(t, a)
  {
    SameUnique(t, u);
    var r := FindByKey(t, a.provider, a.subject);
    if r.Some? {
      FindByKeyIs(u, a.provider, a.subject, r.value);
    }
    if i :| i in t && (HasKey(t[i], a.provider, a.subject) || t[i].user == a.user) {
      assert HasKey(u[i], a.provider, a.subject) || u[i].user == a.user;
    }
    if i :| i in u && (HasKey(u[i], a.provider, a.subject) || u[i].user == a.user) {
      assert HasKey(t[i], a.provider, a.subject) || t[i].user == a.user;
    }
  }

  lemma SameUnique(t: Table, u: Table)
    requires SameRows(t, u) && Unique(t)
    ensures Unique(u)
  {
    forall i, j {:trigger u[i], u[j]} | i in u && j in u && i != j ensures u[i].user != u[j].user && !HasKey(u[i], u[j].provider, u[j].subject) {
      assert t[i].user != t[j].user && !HasKey(t[i], t[j].provider, t[j].subject);
    }
  }

  lemma FindBlind(w: World, t: Table, hid: Id, v: Visit)
    requires SameRows(w.rows, t) && Unique(w.rows)
    ensures SameBut(StepFindIdentity(w, hid, v), StepFindIdentity(w.(rows := t), hid, v))
  {
    hide Unique, FindByKey, ProviderOf, SubjectOf, SameRows;
    SameFind(w.rows, t, LinkArgs(ProviderOf(v.route), SubjectOf(v.route, v.who.sub), "", None, false));
    var found := FindByKey(w.rows, ProviderOf(v.route), SubjectOf(v.route, v.who.sub));
    if found.Some? {
      SameRowOf(w.rows, t, found.value);
    }
  }

  lemma SelectBlind(w: World, t: Table, hid: Id, src: LinkSource, a: LinkArgs)
    requires SameRows(w.rows, t) && Unique(w.rows)
    ensures SameBut(StepLinkSelect(w, hid, src, a), StepLinkSelect(w.(rows := t), hid, src, a))
  {
    hide Unique, FindByKey, Answer;
    SameFind(w.rows, t, a);
    AnswerBlind(w, t, hid, src, a, AlreadyLinked);
  }

  lemma AnswerBlind(w: World, t: Table, hid: Id, src: LinkSource, a: LinkArgs, r: LinkResult)
    ensures Answer(w.(rows := t), hid, src, a, r) == Answer(w, hid, src, a, r).(rows := t)
    ensures Answer(w, hid, src, a, r).rows == w.rows
  {
  }

  lemma UpdateBlind(w: World, t: Table, hid: Id, src: LinkSource, a: LinkArgs, id: Id)
    requires SameRows(w.rows, t)
    ensures SameBut(StepLinkUpdate(w, hid, src, a, id), StepLinkUpdate(w.(rows := t), hid, src, a, id))
  {
    if id in w.rows {
      hide Answer;
      var w1 := w.(rows := Refreshed(w.rows, id, a));
      AnswerBlind(w1, Refreshed(t, id, a), hid, src, a, Linked(id));
    }
  }

  lemma InsertBlind(w: World, t: Table, hid: Id, src: LinkSource, a: LinkArgs, c: Choice)
    requires SameRows(w.rows, t) && Unique(w.rows)
    ensures SameBut(StepLinkInsert(w, hid, src, a, c), StepLinkInsert(w.(rows := t), hid, src, a, c))
  {
    hide Unique, Conflicts, Answer;
    SameFind(w.rows, t, a);
    if Conflicts(w.rows, a) {
      AnswerBlind(w, t, hid, src, a, AlreadyLinked);
    } else {
      var origin := if src.FromServer? then ByServer else ByCallback(hid);
      var w1 := WithInsert(w, c.draw, a, origin);
      AnswerBlind(w1, Inserted(t, c.draw, a), hid, src, a, Linked(c.draw));
      assert WithInsert(w.(rows := t), c.draw, a, origin) == w1.(rows := Inserted(t, c.draw, a));
    }
  }

  /** Only the exchange looks at a status: every other step takes two worlds that differ only in the
      statuses of their rows to worlds that differ only in those, with the same handlers, records,
      answers and Redis. */
  lemma StepIgnoresStatus(cfg: Config, w: World, v: World, hid: Id, c: Choice)
    requires SameBut(w, v) && Unique(w.rows) && hid in w.handlers && !w.handlers[hid].ExchangeFind?
    ensures SameBut(StepHandler(cfg, w, hid, c), StepHandler(cfg, v, hid, c))
  {
    hide StepHandler, Unique, SameRows;
    var t := v.rows;
    match w.handlers[hid]
    case FindIdentity(_) => RowStepBlind(cfg, w, t, hid, c);
    case LinkSelect(_, _) => RowStepBlind(cfg, w, t, hid, c);
    case LinkUpdate(_, _, _) => RowStepBlind(cfg, w, t, hid, c);
    case LinkInsert(_, _) => RowStepBlind(cfg, w, t, hid, c);
    case _ =>
      OtherStepBlind(cfg, w, t, hid, c);
  }

  lemma OtherStepBlind(cfg: Config, w: World, t: Table, hid: Id, c: Choice)
    requires SameRows(w.rows, t) && hid in w.handlers && !ReadsRows(w.handlers[hid])
    ensures SameBut(StepHandler(cfg, w, hid, c), StepHandler(cfg, w.(rows := t), hid, c))
  {
    hide StepHandler, Stage, SameRows;
    assert w.(rows := w.rows) == w;
    if Stage(w.handlers[hid]) == 0 {
      EntryBlind(cfg, w, t, hid, c);
      EntryBlind(cfg, w, w.rows, hid, c);
    } else if Stage(w.handlers[hid]) == 1 {
      FirstBlind(cfg, w, t, hid, c);
      FirstBlind(cfg, w, w.rows, hid, c);
    } else if Stage(w.handlers[hid]) < 4 {
      EarlyBlind(cfg, w, t, hid, c);
      EarlyBlind(cfg, w, w.rows, hid, c);
    } else {
      LateBlind(cfg, w, t, hid, c);
      LateBlind(cfg, w, w.rows, hid, c);
    }
  }

  lemma RowStepBlind(cfg: Config, w: World, t: Table, hid: Id, c: Choice)
    requires SameRows(w.rows, t) && Unique(w.rows) && hid in w.handlers
    requires var h := w.handlers[hid]; h.FindIdentity? || h.LinkSelect? || h.LinkUpdate? || h.LinkInsert?
    ensures SameBut(StepHandler(cfg, w, hid, c), StepHandler(cfg, w.(rows := t), hid, c))
  {
    hide StepFindIdentity, StepLinkSelect, StepLinkUpdate, StepLinkInsert, Unique, SameRows;
    match w.handlers[hid]
    case FindIdentity(v) => FindBlind(w, t, hid, v);
    case LinkSelect(src, a) => SelectBlind(w, t, hid, src, a);
    case LinkUpdate(src, a, id) => UpdateBlind(w, t, hid, src, a, id);
    case LinkInsert(src, a) => InsertBlind(w, t, hid, src, a, c);
  }

  // ---------------------------------------------------------------- over whole runs

  /** The same action, or two that touch at most a status. */
  ghost predicate Alike(a: Action, b: Action) {
    a == b || (Quiet(a) && Quiet(b))
  }

  predicate Quiet(a: Action) {
    a.ChangeStatus? || a == Elapse(0)
  }

  predicate AtTheExchange(w: World, a: Action) {
    a.Resume? && a.hid in w.handlers && w.handlers[a.hid].ExchangeFind?
  }

  lemma QuietIgnoresStatus(cfg: Config, w: World, v: World, a: Action, b: Action)
    requires SameBut(w, v) && Quiet(a) && Quiet(b) && (a.ChangeStatus? ==> a.id in w.rows) && (b.ChangeStatus? ==> b.id in w.rows)
    ensures Enabled(v, b) && SameBut(Next(cfg, w, a), Next(cfg, v, b))
  {
    hide Next, Enabled, SameRows;
    QuietRows(w, v, b);
    QuietIs(cfg, w, a);
    QuietIs(cfg, v, b);
    SameOf(w.rows, Next(cfg, w, a).rows, v.rows, Next(cfg, v, b).rows);
  }

  lemma QuietRows(w: World, v: World, b: Action)
    requires SameBut(w, v) && (b.ChangeStatus? ==> b.id in w.rows)
    ensures b.ChangeStatus? ==> b.id in v.rows
  {
  }

  lemma SameOf(t: Table, t': Table, u: Table, u': Table)
    requires SameRows(t, u) && SameRows(t, t') && SameRows(u, u')
    ensures SameRows(t', u')
  {
  }

  lemma QuietIs(cfg: Config, w: World, a: Action)
    requires Quiet(a) && (a.ChangeStatus? ==> a.id in w.rows)
    ensures Enabled(w, a)
    ensures var w' := Next(cfg, w, a); w' == Ticked(w).(rows := w'.rows) && SameRows(w.rows, w'.rows)
  {
  }

  lemma NextIgnoresStatus(cfg: Config, w: World, v: World, a: Action, b: Action)
    requires SameBut(w, v) && Unique(w.rows) && Replays(w, a, b) && Enabled(w, a)
    ensures Enabled(v, b) && SameBut(Next(cfg, w, a), Next(cfg, v, b))
  {
    hide Unique, StepHandler, SameRows, IsEntry;
    if Quiet(a) {
      assert a.ChangeStatus? ==> a.id in w.rows;
      QuietIgnoresStatus(cfg, w, v, a, b);
    } else if a.Resume? {
      StepIgnoresStatus(cfg, Drawn(Ticked(w), a.choice), Drawn(Ticked(v), a.choice), a.hid, a.choice);
    }
  }

  /** Action `b` may stand for `a`, which is not the exchange reading a row. */
  ghost predicate Replays(w: World, a: Action, b: Action) {
    Alike(a, b) && !AtTheExchange(w, a) && (b.ChangeStatus? ==> b.id in w.rows)
  }

  /** A run with other statuses: take any run in which no exchange reads a row, give its rows any other
      statuses at the start and change them at any other moments. The same requests take the same
      steps and end in the same sessions, challenges, codes, tickets, links and answers. */
  lemma {:induction false} RunIgnoresStatus(cfg: Config, run: seq<World>, acts: seq<Action>, rows: Table, acts': seq<Action>)
    returns (run': seq<World>)
    requires IsRun(cfg, run, acts) && |run| == |acts| + 1 && |acts'| == |acts| && SameRows(run[0].rows, rows)
    requires forall i {:trigger acts[i]} :: 0 <= i < |acts| ==> Replays(run[i], acts[i], acts'[i])
    ensures IsRun(cfg, run', acts') && |run'| == |run| && run'[0].rows == rows
    ensures forall i {:trigger run'[i]} :: 0 <= i < |run| ==> SameBut(run[i], run'[i])
    decreases |acts|
  {
    hide Next, Enabled, SameRows, Initial, Replays, Unique;
    if acts == [] {
      StartOfRun(cfg, run, acts);
      SameStart(run[0], rows);
      run' := [run[0].(rows := rows)];
    } else {
      var n := |acts| - 1;
      RunPrefix(cfg, run, acts, n);
      forall i {:trigger acts[..n][i]} | 0 <= i < n ensures Replays(run[..n + 1][i], acts[..n][i], acts'[..n][i]) {
        assert acts[i] == acts[..n][i];
      }
      run' := RunIgnoresStatus(cfg, run[..n + 1], acts[..n], rows, acts'[..n]);
      NextOfRun(cfg, run, acts, n);
      TableIsUnique(cfg, run, acts, n);
      assert SameBut(run[..n + 1][n], run'[n]);
      NextIgnoresStatus(cfg, run[n], run'[n], acts[n], acts'[n]);
      var acts1: seq<Action>;
      run', acts1 := Take(cfg, run', acts'[..n], acts'[n]);
      assert acts1 == acts';
    }
  }

  lemma RunPrefix(cfg: Config, run: seq<World>, acts: seq<Action>, n: nat)
    requires IsRun(cfg, run, acts) && n <= |acts|
    ensures IsRun(cfg, run[..n + 1], acts[..n])
  {
    hide Next, Enabled, Initial;
    forall i {:trigger acts[..n][i]} | 0 <= i < n
      ensures Enabled(run[..n + 1][i], acts[..n][i]) && run[..n + 1][i + 1] == Next(cfg, run[..n + 1][i], acts[..n][i])
    {
      assert acts[i] == acts[..n][i];
    }
  }

  lemma SameStart(w: World, rows: Table)
    requires Initial(w) && SameRows(w.rows, rows)
    ensures Initial(w.(rows := rows)) && SameBut(w, w.(rows := rows))
  {
    SameUnique(w.rows, rows);
    hide Unique;
    assert w.rows.Keys == rows.Keys;
  }

  /** Whatever statuses the rows have at a step, it does the same, unless it is the exchange reading
      its row: that goes on to a token exactly when the row is active. */
  lemma OnlyTheExchangeLooks(cfg: Config, run: seq<World>, acts: seq<Action>, i: nat, hid: Id, rows: Table)
    requires IsRun(cfg, run, acts) && Moves(run, acts, i, hid) && SameRows(run[i].rows, rows)
    ensures var h := run[i].handlers[hid];
            var c := acts[i].choice;
            var other := StepHandler(cfg, Drawn(Ticked(run[i]), c).(rows := rows), hid, c);
            if !h.ExchangeFind? then SameBut(run[i + 1], other)
            else
              && h.payload.authIdentityId in rows && hid in other.handlers
              && (if rows[h.payload.authIdentityId].status == Active then other.handlers[hid].ExchangeSign?
                  else other.handlers[hid].Finished? && other.hist.tokens == run[i].hist.tokens)
  {
    hide IsRun, Core, Past, UsedPast, StepHandler, Unique, SameRows;
    MoveIs(cfg, run, acts, i, hid);
    TableIsUnique(cfg, run, acts, i);
    var w, c := Drawn(Ticked(run[i]), acts[i].choice), acts[i].choice;
    if run[i].handlers[hid].ExchangeFind? {
      OnlyRevocationRejects(cfg, run, acts, i, hid);
      SameRowOf(run[i].rows, rows, w.handlers[hid].payload.authIdentityId);
      FindStep(cfg, w.(rows := rows), hid, c, w.handlers[hid].code, w.handlers[hid].payload);
    } else {
      StepIgnoresStatus(cfg, w, w.(rows := rows), hid, c);
    }
  }

  lemma SameRowOf(t: Table, u: Table, id: Id)
    requires SameRows(t, u) && id in t
    ensures id in u && u[id].user == t[id].user
  {
  }
}
