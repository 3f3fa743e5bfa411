/** The history of a run is true of the run: what it says was approved, read, signed or kept was
    approved, read, signed or kept at the step it names. */
module ProtocolTraces {
  import opened Wrappers
  import opened Records
  import opened RedisKeyspace
  import opened IdentityTable
  import opened Registry
  import opened TenantKey
  import opened Protocol
  import Requirements
  import opened ProtocolInvariant
  import opened ProtocolChanges
  import opened ProtocolSteps
  import opened ProtocolOutcomes
  import opened ProtocolPast
  import opened ProtocolRuns

  // ---------------------------------------------------------------- one step of a run

  /** How `run[i + 1]` differs from `run[i]`. */
  ghost predicate Follows(w: World, w': World, a: Action) {
    match a
    case Resume(hid, c) =>
      && hid in w.handlers && !w.handlers[hid].Finished?
      && StepAdds(Drawn(Ticked(w), c), w', hid, c)
    case Accept(hid, h) =>
      hid !in w.handlers && IsEntry(h) && w' == Goto(Ticked(w), hid, h)
    case Elapse(ms) => w' == Ticked(w).(now := w.now + ms)
    case ChangeClients(cs) => w' == Ticked(w).(clients := cs)
    case ChangeStatus(id, s) => id in w.rows && w' == Ticked(w).(rows := w.rows[id := w.rows[id].(status := s)])
    case Fail(hid) => hid in w.handlers && !w.handlers[hid].Finished? && w' == End(Ticked(w), hid)
  }

  lemma InvMinds(cfg: Config, w: World, hid: Id)
    requires Inv(cfg, w) && hid in w.handlers
    ensures Minds(w.handlers[hid])
  {
    hide Core, Minds;
    HandlersMind(cfg, w, hid);
  }

  lemma NextFollows(cfg: Config, w: World, a: Action)
    requires Inv(cfg, w) && Enabled(w, a)
    ensures Follows(w, Next(cfg, w, a), a)
  {
    hide Inv, StepHandler, StepAdds, IsEntry, Minds;
    if a.Resume? {
      RowIsNew(cfg, w, a.hid, a.choice);
      InvMinds(cfg, w, a.hid);
      ResumeAdds(cfg, Drawn(Ticked(w), a.choice), a.hid, a.choice);
    }
  }

  lemma NextOfRun(cfg: Config, run: seq<World>, acts: seq<Action>, i: nat)
    requires IsRun(cfg, run, acts) && i < |acts|
    ensures |run| == |acts| + 1 && Enabled(run[i], acts[i]) && run[i + 1] == Next(cfg, run[i], acts[i])
  {
    hide Next, Enabled, Initial;
    assert Enabled(run[i], acts[i]);
  }

  lemma StepOfRun(cfg: Config, run: seq<World>, acts: seq<Action>, i: nat)
    requires IsRun(cfg, run, acts) && i < |acts|
    ensures |run| == |acts| + 1 && Inv(cfg, run[i]) && Inv(cfg, run[i + 1])
    ensures Enabled(run[i], acts[i]) && run[i + 1] == Next(cfg, run[i], acts[i])
    ensures Follows(run[i], run[i + 1], acts[i])
  {
    hide IsRun, Inv, Next, Enabled, Follows;
    NextOfRun(cfg, run, acts, i);
    RunInv(cfg, run, acts, i);
    RunInv(cfg, run, acts, i + 1);
    NextFollows(cfg, run[i], acts[i]);
  }

  lemma RowIsNew(cfg: Config, w: World, hid: Id, c: Choice)
    requires Inv(cfg, w) && Enabled(w, Resume(hid, c))
    ensures c.draw !in w.rows
  {
    hide HandlersOK, EntriesOK, Past, Singles, UsedPast;
  }

  lemma FollowsCounts(w: World, w': World, a: Action)
    requires Follows(w, w', a)
    ensures w'.hist.steps == w.hist.steps + 1
  {
    hide Treats, Adds, Writes, RowsKept, IsEntry;
  }

  lemma StartOfRun(cfg: Config, run: seq<World>, acts: seq<Action>)
    requires IsRun(cfg, run, acts)
    ensures |run| == |acts| + 1 && Initial(run[0])
  {
    hide Next, Enabled, Initial;
  }

  lemma {:induction false} StepsCount(cfg: Config, run: seq<World>, acts: seq<Action>, i: nat)
    requires IsRun(cfg, run, acts) && i < |run|
    ensures run[i].hist.steps == i
  {
    hide IsRun, Inv, Next, Enabled, Follows;
    StartOfRun(cfg, run, acts);
    if i > 0 {
      StepsCount(cfg, run, acts, i - 1);
      StepOfRun(cfg, run, acts, i - 1);
      FollowsCounts(run[i - 1], run[i], acts[i - 1]);
    }
  }

  lemma RunOfOne(cfg: Config, w: World)
    requires cfg.Valid() && Initial(w)
    ensures IsRun(cfg, [w], [])
  {
  }

  /** One more action at the end of a run. */
  lemma Take(cfg: Config, run: seq<World>, acts: seq<Action>, a: Action) returns (run': seq<World>, acts': seq<Action>)
    requires IsRun(cfg, run, acts) && Enabled(run[|acts|], a)
    ensures IsRun(cfg, run', acts') && |run'| == |acts'| + 1 && run'[|acts'|] == Next(cfg, run[|acts|], a)
    ensures run <= run' && acts <= acts' && |acts'| == |acts| + 1 && acts'[|acts|] == a
  {
    hide Next, Enabled, Initial;
    run', acts' := run + [Next(cfg, run[|acts|], a)], acts + [a];
    forall i {:trigger acts'[i]} | 0 <= i < |acts'| ensures Enabled(run'[i], acts'[i]) && run'[i + 1] == Next(cfg, run'[i], acts'[i]) {
      if i < |acts| {
        assert acts'[i] == acts[i] && run'[i] == run[i] && run'[i + 1] == run[i + 1];
      }
    }
  }

  // ---------------------------------------------------------------- rows over a run

  lemma RowsFollow(w: World, w': World, a: Action)
    requires Follows(w, w', a)
    ensures Keeps(w.rows, w'.rows)
    ensures forall id {:trigger w'.rows[id]} :: id in w.rows && w'.rows[id].status != w.rows[id].status ==> a == ChangeStatus(id, w'.rows[id].status)
  {
    hide Treats, Adds, Writes, Sources, IsEntry;
  }

  /** No step deletes a row or changes its id, its key or its owner. */
  lemma {:induction false} RowsOfRun(cfg: Config, run: seq<World>, acts: seq<Action>, i: nat, j: nat)
    requires IsRun(cfg, run, acts) && i <= j < |run|
    ensures Keeps(run[i].rows, run[j].rows)
    decreases j
  {
    hide IsRun, Inv, Next, Enabled, Follows;
    StartOfRun(cfg, run, acts);
    if i < j {
      StepOfRun(cfg, run, acts, j - 1);
      RowsFollow(run[j - 1], run[j], acts[j - 1]);
      RowsOfRun(cfg, run, acts, i, j - 1);
    }
  }

  /** Only an outside change alters a status: no link, callback or exchange does. */
  lemma StatusChangesOutside(cfg: Config, run: seq<World>, acts: seq<Action>, i: nat, id: Id)
    requires IsRun(cfg, run, acts) && i < |acts| && id in run[i].rows
    ensures |run| == |acts| + 1 && id in run[i + 1].rows
    ensures run[i + 1].rows[id].status != run[i].rows[id].status ==> acts[i] == ChangeStatus(id, run[i + 1].rows[id].status)
  {
    hide IsRun, Inv, Next, Enabled, Follows;
    StepOfRun(cfg, run, acts, i);
    RowsFollow(run[i], run[i + 1], acts[i]);
  }

  // ---------------------------------------------------------------- where an approval comes from

  /** At step `a.at` handler `k` asked for `a.q`, which the registry of the moment allowed. */
  ghost predicate ApprovedAt(run: seq<World>, acts: seq<Action>, k: Id, a: Approval) {
    && a.at < |acts| && a.at < |run|
    && acts[a.at].Resume? && acts[a.at].hid == k
    && k in run[a.at].handlers && run[a.at].handlers[k] == AuthorizeLookup(a.q)
    && Requirements.Registered(run[a.at].clients, a.q)
  }

  lemma LookupApproves(cfg: Config, w: World, hid: Id, c: Choice, q: AuthorizeRequest)
    requires hid in w.handlers && w.handlers[hid] == AuthorizeLookup(q) && hid !in w.hist.approvals
    ensures var w' := StepHandler(cfg, Drawn(Ticked(w), c), hid, c);
            hid in w'.hist.approvals ==>
              w'.hist.approvals[hid] == Approval(q, w.hist.steps) && Requirements.Registered(w.clients, q)
  {
    hide StepHandler, Permits, StepAuthorizeLookup, Requirements.Registered;
    PermitsRegistered(w.clients, q);
    var v := Drawn(Ticked(w), c);
    StepIsLookup(cfg, v, hid, c, q);
    LookupRecords(v, hid, q);
  }

  lemma PermitsRegistered(cs: Clients, q: AuthorizeRequest)
    ensures Permits(cs, q.clientId, q.redirectUri, q.purpose) <==> Requirements.Registered(cs, q)
  {
  }

  lemma LookupRecords(w: World, hid: Id, q: AuthorizeRequest)
    requires hid !in w.hist.approvals
    ensures var h := StepAuthorizeLookup(w, hid, q).hist;
            hid in h.approvals ==>
              h.approvals[hid] == Approval(q, Index(w)) && Permits(w.clients, q.clientId, q.redirectUri, q.purpose)
  {
    hide Permits, IsSlug, Index, WithApproval;
    var approved := WithApproval(w, hid, Approval(q, Index(w)));
    assert approved.hist.approvals == w.hist.approvals[hid := Approval(q, Index(w))] by { PutApproval(w, hid, q); }
    if Permits(w.clients, q.clientId, q.redirectUri, q.purpose) {
      if q.clientState != "" && (q.partnerSlug.None? || IsSlug(q.partnerSlug.value)) {
        if q.purpose != "link" {
          assert StepAuthorizeLookup(w, hid, q) == Goto(approved, hid, AuthorizeSave(q, None));
        } else {
          assert StepAuthorizeLookup(w, hid, q) == Goto(approved, hid, AuthorizeCheck(q));
        }
      } else {
        assert StepAuthorizeLookup(w, hid, q) == End(w, hid);
      }
    } else {
      assert StepAuthorizeLookup(w, hid, q) == End(w, hid);
    }
  }

  lemma PutApproval(w: World, hid: Id, q: AuthorizeRequest)
    ensures WithApproval(w, hid, Approval(q, Index(w))).hist.approvals == w.hist.approvals[hid := Approval(q, Index(w))]
  {
  }

  lemma StepIsLookup(cfg: Config, w: World, hid: Id, c: Choice, q: AuthorizeRequest)
    requires hid in w.handlers && w.handlers[hid] == AuthorizeLookup(q)
    ensures StepHandler(cfg, w, hid, c) == StepAuthorizeLookup(w, hid, q)
  {
  }

  lemma ApprovalsFollow(w: World, w': World, a: Action, k: Id)
    requires Follows(w, w', a) && k in w'.hist.approvals
    ensures || (k in w.hist.approvals && w'.hist.approvals[k] == w.hist.approvals[k])
            || (a.Resume? && a.hid == k && k in w.handlers && w.handlers[k].AuthorizeLookup?)
  {
    hide Treats, Writes, RowsKept, IsEntry, Names;
  }

  lemma NoApprovalYet(cfg: Config, w: World, hid: Id)
    requires Inv(cfg, w) && hid in w.handlers && w.handlers[hid].AuthorizeLookup?
    ensures hid !in w.hist.approvals
  {
    hide Core, Past, Singles, UsedPast;
    NotYet(w, hid);
  }

  lemma {:induction false} ApprovalIsReal(cfg: Config, run: seq<World>, acts: seq<Action>, i: nat, k: Id)
    requires IsRun(cfg, run, acts) && i < |run| && k in run[i].hist.approvals
    ensures ApprovedAt(run, acts, k, run[i].hist.approvals[k])
  {
    hide IsRun, Inv, Next, Enabled, Follows, Permits, StepHandler;
    StartOfRun(cfg, run, acts);
    if i > 0 {
      StepOfRun(cfg, run, acts, i - 1);
      ApprovalsFollow(run[i - 1], run[i], acts[i - 1], k);
      if k in run[i - 1].hist.approvals && run[i].hist.approvals[k] == run[i - 1].hist.approvals[k] {
        ApprovalIsReal(cfg, run, acts, i - 1, k);
      } else {
        NoApprovalYet(cfg, run[i - 1], k);
        ResumeIs(cfg, run[i - 1], k, acts[i - 1].choice);
        LookupApproves(cfg, run[i - 1], k, acts[i - 1].choice, run[i - 1].handlers[k].q);
        StepsCount(cfg, run, acts, i - 1);
      }
    }
  }

  lemma ResumeIs(cfg: Config, w: World, hid: Id, c: Choice)
    requires Enabled(w, Resume(hid, c))
    ensures hid in w.handlers && !w.handlers[hid].Finished? && c.draw !in w.hist.drawn
    ensures Next(cfg, w, Resume(hid, c)) == StepHandler(cfg, Drawn(Ticked(w), c), hid, c)
  {
    hide StepHandler;
  }

  // ---------------------------------------------------------------- where sessions, logins and codes come from

  /** At step `s.at` the authorize handler `s.creator` drew this id and stored this session. */
  ghost predicate CreatedAt(run: seq<World>, acts: seq<Action>, sid: Id, s: SessionRecord) {
    && s.at < |acts| && s.at < |run| && acts[s.at].Resume? && acts[s.at].hid == s.creator && acts[s.at].choice.draw == sid
    && s.creator in run[s.at].handlers && run[s.at].handlers[s.creator].AuthorizeSave?
    && (var h := run[s.at].handlers[s.creator];
        var c := acts[s.at].choice;
        s.base == OAuthSession(h.q.clientId, h.q.redirectUri, h.q.purpose, c.state, c.nonce, h.q.clientState, None, h.linkUser, h.q.partnerSlug))
  }

  /** At step `l.at` the provider vouched for `l.who` to handler `hid`, which redeemed the provider's
      code with this session's verifier and checked the answer against its nonce. */
  ghost predicate LoggedInAt(run: seq<World>, acts: seq<Action>, hid: Id, l: Login) {
    && l.at < |acts| && l.at < |run| && acts[l.at].Resume? && acts[l.at].hid == hid
    && acts[l.at].choice.ok && acts[l.at].choice.who == l.who
    && hid in run[l.at].handlers && run[l.at].handlers[hid].CallbackVerify?
    && (var h := run[l.at].handlers[hid];
        h.route == l.route && h.sid == l.sid && h.session.nonce == l.nonce && h.session.codeVerifier == Some(l.verifier))
  }

  /** At step `k.at` the handler `k.owner` drew this code and issued it for its own challenge. */
  ghost predicate IssuedAt(run: seq<World>, acts: seq<Action>, code: Id, k: CodeInfo) {
    && k.at < |acts| && k.at < |run| && acts[k.at].Resume? && acts[k.at].hid == k.owner && acts[k.at].choice.draw == code
    && k.owner in run[k.at].handlers && run[k.at].handlers[k.owner].IssueCode?
    && (var h := run[k.at].handlers[k.owner];
        && h.challenge == k.challenge && h.visit.sid == k.sid && h.record.kisUserId.Some? && h.record.authIdentityId.Some?
        && k.payload == AuthorizationCodePayload(h.record.purpose, h.record.clientId, h.record.kisUserId.value, h.record.authIdentityId.value,
                                                 h.visit.session.redirectUri))
  }

  /** At step `k.at` the handler `k.owner` drew this ticket and issued it for its own visit. */
  ghost predicate TicketIssuedAt(run: seq<World>, acts: seq<Action>, t: Id, k: TicketInfo) {
    && k.at < |acts| && k.at < |run| && acts[k.at].Resume? && acts[k.at].hid == k.owner && acts[k.at].choice.draw == t
    && k.owner in run[k.at].handlers && run[k.at].handlers[k.owner].RegisterIssue?
    && (var h := run[k.at].handlers[k.owner];
        && h.visit.sid == k.sid
        && k.payload.clientId == h.visit.session.clientId && k.payload.redirectUri == h.visit.session.redirectUri
        && k.payload.providerEmail == h.visit.who.email && k.payload.providerEmailVerified == h.visit.who.emailVerified
        && Requirements.KnownAs(h.visit.route, h.visit.who.sub, k.payload.provider, k.payload.providerSubject)
        && (match h.visit.route
            case Google => k.payload.purpose == "registration" && k.payload.partnerSlug == None
            case Enterprise(slug) => k.payload.purpose == "enterprise_sso_registration" && k.payload.partnerSlug == Some(slug)))
  }

  lemma SaveCreates(cfg: Config, w: World, hid: Id, c: Choice)
    requires hid in w.handlers && w.handlers[hid].AuthorizeSave?
    ensures var w' := StepHandler(cfg, Drawn(Ticked(w), c), hid, c);
            var h := w.handlers[hid];
            w'.hist.sessions == w.hist.sessions[c.draw := SessionRecord(NewSession(h.q, h.linkUser, c), hid, w.hist.steps)]
  {
    hide NewSession;
  }

  lemma VerifyLogsIn(cfg: Config, w: World, hid: Id, c: Choice)
    requires hid in w.handlers && w.handlers[hid].CallbackVerify?
    ensures var h := w.handlers[hid];
            StepHandler(cfg, Drawn(Ticked(w), c), hid, c).hist.logins
            == (if !c.ok || c.who.sub == "" || h.session.codeVerifier.None? then w.hist.logins
                else w.hist.logins[hid := Login(h.sid, h.route, h.session.nonce, h.session.codeVerifier.value, c.who, w.hist.steps)])
  {
    hide ArgsOf, StepCallbackVerify;
    var h := w.handlers[hid];
    VerifyRecords(Drawn(Ticked(w), c), hid, c, h.route, h.sid, h.session);
  }

  lemma VerifyRecords(w: World, hid: Id, c: Choice, route: Route, sid: Id, s: OAuthSession)
    ensures StepCallbackVerify(w, hid, route, sid, s, c).hist.logins
            == (if !c.ok || c.who.sub == "" || s.codeVerifier.None? then w.hist.logins
                else w.hist.logins[hid := Login(sid, route, s.nonce, s.codeVerifier.value, c.who, Index(w))])
  {
    hide ArgsOf, Index;
    if !c.ok || c.who.sub == "" || s.codeVerifier.None? {
    } else if s.purpose != "link" {
    } else if s.linkKisUserId.None? {
    } else {
    }
  }

  lemma IssueRecords(cfg: Config, w: World, hid: Id, c: Choice)
    requires hid in w.handlers && w.handlers[hid].IssueCode?
    ensures var h := w.handlers[hid];
            StepHandler(cfg, Drawn(Ticked(w), c), hid, c).hist.codes
            == (if h.record.kisUserId.None? || h.record.authIdentityId.None? then w.hist.codes
                else w.hist.codes[c.draw := CodeInfo(PayloadFor(h.visit, h.record), h.visit.sid, h.challenge, hid, w.hist.steps)])
  {
    hide PayloadFor, SetEx;
  }

  lemma RegisterRecords(cfg: Config, w: World, hid: Id, c: Choice)
    requires hid in w.handlers && w.handlers[hid].RegisterIssue?
    ensures var h := w.handlers[hid];
            StepHandler(cfg, Drawn(Ticked(w), c), hid, c).hist.tickets
            == w.hist.tickets[c.draw := TicketInfo(TicketFor(h.visit), h.visit.sid, hid, w.hist.steps)]
  {
    hide TicketFor, SetEx;
  }

  /** A history map that changes in a step changes at a known kind of step. */
  lemma RecordsFollow(w: World, w': World, a: Action)
    requires Follows(w, w', a)
    ensures w'.hist.sessions == w.hist.sessions || (a.Resume? && a.hid in w.handlers && w.handlers[a.hid].AuthorizeSave?)
    ensures w'.hist.logins == w.hist.logins || (a.Resume? && a.hid in w.handlers && w.handlers[a.hid].CallbackVerify?)
    ensures w'.hist.codes == w.hist.codes || (a.Resume? && a.hid in w.handlers && w.handlers[a.hid].IssueCode?)
    ensures w'.hist.tickets == w.hist.tickets || (a.Resume? && a.hid in w.handlers && w.handlers[a.hid].RegisterIssue?)
  {
    hide Treats, Writes, RowsKept, Adds, IsEntry;
  }

  lemma {:induction false} SessionIsReal(cfg: Config, run: seq<World>, acts: seq<Action>, i: nat, sid: Id)
    requires IsRun(cfg, run, acts) && i < |run| && sid in run[i].hist.sessions
    ensures CreatedAt(run, acts, sid, run[i].hist.sessions[sid])
  {
    hide IsRun, Inv, Next, Enabled, Follows, StepHandler;
    StartOfRun(cfg, run, acts);
    if i > 0 {
      StepOfRun(cfg, run, acts, i - 1);
      RecordsFollow(run[i - 1], run[i], acts[i - 1]);
      if run[i].hist.sessions != run[i - 1].hist.sessions {
        ResumeIs(cfg, run[i - 1], acts[i - 1].hid, acts[i - 1].choice);
        SaveCreates(cfg, run[i - 1], acts[i - 1].hid, acts[i - 1].choice);
        StepsCount(cfg, run, acts, i - 1);
      }
      if sid in run[i - 1].hist.sessions && run[i].hist.sessions[sid] == run[i - 1].hist.sessions[sid] {
        SessionIsReal(cfg, run, acts, i - 1, sid);
      }
    }
  }

  lemma {:induction false} LoginIsReal(cfg: Config, run: seq<World>, acts: seq<Action>, i: nat, hid: Id)
    requires IsRun(cfg, run, acts) && i < |run| && hid in run[i].hist.logins
    ensures LoggedInAt(run, acts, hid, run[i].hist.logins[hid])
  {
    hide IsRun, Inv, Next, Enabled, Follows, StepHandler;
    StartOfRun(cfg, run, acts);
    if i > 0 {
      StepOfRun(cfg, run, acts, i - 1);
      RecordsFollow(run[i - 1], run[i], acts[i - 1]);
      if run[i].hist.logins != run[i - 1].hist.logins {
        ResumeIs(cfg, run[i - 1], acts[i - 1].hid, acts[i - 1].choice);
        VerifyLogsIn(cfg, run[i - 1], acts[i - 1].hid, acts[i - 1].choice);
        StepsCount(cfg, run, acts, i - 1);
      }
      if hid in run[i - 1].hist.logins && run[i].hist.logins[hid] == run[i - 1].hist.logins[hid] {
        LoginIsReal(cfg, run, acts, i - 1, hid);
      }
    }
  }

  lemma {:induction false} CodeIsReal(cfg: Config, run: seq<World>, acts: seq<Action>, i: nat, code: Id)
    requires IsRun(cfg, run, acts) && i < |run| && code in run[i].hist.codes
    ensures IssuedAt(run, acts, code, run[i].hist.codes[code])
  {
    hide IsRun, Inv, Next, Enabled, Follows, StepHandler;
    StartOfRun(cfg, run, acts);
    if i > 0 {
      StepOfRun(cfg, run, acts, i - 1);
      RecordsFollow(run[i - 1], run[i], acts[i - 1]);
      if run[i].hist.codes != run[i - 1].hist.codes {
        ResumeIs(cfg, run[i - 1], acts[i - 1].hid, acts[i - 1].choice);
        IssueRecords(cfg, run[i - 1], acts[i - 1].hid, acts[i - 1].choice);
        StepsCount(cfg, run, acts, i - 1);
      }
      if code in run[i - 1].hist.codes && run[i].hist.codes[code] == run[i - 1].hist.codes[code] {
        CodeIsReal(cfg, run, acts, i - 1, code);
      }
    }
  }

  lemma {:induction false} TicketIsReal(cfg: Config, run: seq<World>, acts: seq<Action>, i: nat, t: Id)
    requires IsRun(cfg, run, acts) && i < |run| && t in run[i].hist.tickets
    ensures TicketIssuedAt(run, acts, t, run[i].hist.tickets[t])
  {
    hide IsRun, Inv, Next, Enabled, Follows, StepHandler;
    StartOfRun(cfg, run, acts);
    if i > 0 {
      StepOfRun(cfg, run, acts, i - 1);
      RecordsFollow(run[i - 1], run[i], acts[i - 1]);
      if run[i].hist.tickets != run[i - 1].hist.tickets {
        ResumeIs(cfg, run[i - 1], acts[i - 1].hid, acts[i - 1].choice);
        RegisterRecords(cfg, run[i - 1], acts[i - 1].hid, acts[i - 1].choice);
        StepsCount(cfg, run, acts, i - 1);
      }
      if t in run[i - 1].hist.tickets && run[i].hist.tickets[t] == run[i - 1].hist.tickets[t] {
        TicketIsReal(cfg, run, acts, i - 1, t);
      }
    }
  }

  // ---------------------------------------------------------------- what the exchange read

  /** At step `foundAt` the exchange read an active row, owned by the code's user. */
  ghost predicate FoundActive(run: seq<World>, foundAt: nat, identity: Id, user: string, email: Option<string>, emailVerified: bool) {
    && foundAt < |run| && identity in run[foundAt].rows
    && (var row := run[foundAt].rows[identity];
        row.status == Active && row.user == user && row.email == email && row.emailVerified == emailVerified)
  }

  ghost predicate SignerFound(run: seq<World>, h: Handler) {
    h.ExchangeSign? ==> FoundActive(run, h.foundAt, h.payload.authIdentityId, h.payload.kisUserId, h.email, h.emailVerified)
  }

  lemma FindReads(cfg: Config, w: World, hid: Id, c: Choice)
    requires hid in w.handlers && w.handlers[hid].ExchangeFind?
    ensures var w' := StepHandler(cfg, Drawn(Ticked(w), c), hid, c);
            hid in w'.handlers &&
            (w'.handlers[hid].ExchangeSign? ==>
              var h := w'.handlers[hid];
              && h.foundAt == w.hist.steps && h.payload.authIdentityId in w.rows
              && (var row := w.rows[h.payload.authIdentityId];
                  row.status == Active && row.user == h.payload.kisUserId && row.email == h.email && row.emailVerified == h.emailVerified))
  {
  }

  /** A handler about to sign was moved there by its own read of the row. */
  lemma SignersFollow(w: World, w': World, a: Action, hid: Id)
    requires Follows(w, w', a) && hid in w'.handlers && w'.handlers[hid].ExchangeSign?
    ensures || (hid in w.handlers && w.handlers[hid] == w'.handlers[hid])
            || (a.Resume? && a.hid == hid && hid in w.handlers && w.handlers[hid].ExchangeFind?)
  {
    hide Treats, Writes, RowsKept, Adds;
  }

  lemma {:induction false} SignerIsReal(cfg: Config, run: seq<World>, acts: seq<Action>, i: nat, hid: Id)
    requires IsRun(cfg, run, acts) && i < |run| && hid in run[i].handlers
    ensures SignerFound(run, run[i].handlers[hid])
  {
    hide IsRun, Inv, Next, Enabled, Follows, StepHandler;
    StartOfRun(cfg, run, acts);
    if i > 0 && run[i].handlers[hid].ExchangeSign? {
      StepOfRun(cfg, run, acts, i - 1);
      SignersFollow(run[i - 1], run[i], acts[i - 1], hid);
      if hid in run[i - 1].handlers && run[i - 1].handlers[hid] == run[i].handlers[hid] {
        SignerIsReal(cfg, run, acts, i - 1, hid);
      } else {
        ResumeIs(cfg, run[i - 1], hid, acts[i - 1].choice);
        FindReads(cfg, run[i - 1], hid, acts[i - 1].choice);
        StepsCount(cfg, run, acts, i - 1);
      }
    }
  }

  ghost predicate MintedAt(run: seq<World>, acts: seq<Action>, t: Token) {
    && t.at < |acts| && t.at < |run| && acts[t.at].Resume? && acts[t.at].hid == t.minter && t.minter in run[t.at].handlers
    && (var h := run[t.at].handlers[t.minter];
        if t.AuthToken?
        then h == ExchangeSign(t.code, AuthorizationCodePayload(t.purpose, t.audience, t.subject, t.identity, t.redirectUri),
                               t.email, t.emailVerified, t.foundAt)
        else h.TicketSign? && h.code == t.code)
  }

  lemma SignMints(cfg: Config, w: World, hid: Id, c: Choice)
    requires hid in w.handlers && (w.handlers[hid].ExchangeSign? || w.handlers[hid].TicketSign?)
    ensures var w' := StepHandler(cfg, Drawn(Ticked(w), c), hid, c);
            var h := w.handlers[hid];
            |w'.hist.tokens| == |w.hist.tokens| + 1 && w.hist.tokens <= w'.hist.tokens
            && w'.hist.tokens[|w.hist.tokens|]
               == if h.ExchangeSign?
                  then AuthToken(h.code, hid, h.payload.kisUserId, h.payload.clientId, h.payload.purpose, h.payload.authIdentityId,
                                 h.payload.redirectUri, h.email, h.emailVerified, h.foundAt, w.hist.steps)
                  else RegistrationToken(h.code, hid, h.registration.clientId, h.registration.purpose, h.registration.provider,
                                         h.registration.providerSubject, h.registration.providerEmail, h.registration.providerEmailVerified,
                                         h.registration.partnerSlug, h.registration.redirectUri, w.hist.steps)
  {
  }

  lemma TokensFollow(w: World, w': World, a: Action)
    requires Follows(w, w', a)
    ensures w'.hist.tokens == w.hist.tokens
            || (a.Resume? && a.hid in w.handlers && (w.handlers[a.hid].ExchangeSign? || w.handlers[a.hid].TicketSign?))
  {
    hide Treats, Writes, RowsKept, Only, Names;
  }

  lemma {:induction false} TokenIsReal(cfg: Config, run: seq<World>, acts: seq<Action>, i: nat, n: nat)
    requires IsRun(cfg, run, acts) && i < |run| && n < |run[i].hist.tokens|
    ensures MintedAt(run, acts, run[i].hist.tokens[n]) && run[i].hist.tokens[n].at < i
  {
    hide IsRun, Inv, Next, Enabled, Follows, StepHandler;
    StartOfRun(cfg, run, acts);
    if i > 0 {
      StepOfRun(cfg, run, acts, i - 1);
      TokensFollow(run[i - 1], run[i], acts[i - 1]);
      if n < |run[i - 1].hist.tokens| && run[i].hist.tokens[n] == run[i - 1].hist.tokens[n] {
        TokenIsReal(cfg, run, acts, i - 1, n);
      } else {
        ResumeIs(cfg, run[i - 1], acts[i - 1].hid, acts[i - 1].choice);
        SignMints(cfg, run[i - 1], acts[i - 1].hid, acts[i - 1].choice);
        StepsCount(cfg, run, acts, i - 1);
      }
    }
  }
}
