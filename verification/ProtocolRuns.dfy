/** The invariant holds in every state of every run. */
module ProtocolRuns {
  import opened Wrappers
  import opened Records
  import opened RedisKeyspace
  import opened IdentityTable
  import opened Registry
  import opened Protocol
  import opened ProtocolInvariant
  import opened ProtocolChanges
  import opened ProtocolSteps
  import opened ProtocolOutcomes
  import opened ProtocolPast

  /** A handler has recorded nothing of a stage it has not passed. */
  lemma NotYet(w: World, hid: Id)
    requires Past(w.handlers, w.hist) && hid in w.handlers
    ensures Stage(w.handlers[hid]) < 1 ==> hid !in w.hist.approvals
    ensures Stage(w.handlers[hid]) < 3 ==> hid !in w.hist.claims && hid !in w.hist.logins
    ensures Stage(w.handlers[hid]) < 5 ==> hid !in w.hist.uses && hid !in w.hist.links
  {
    hide Treats, Stage;
  }

  lemma Begin(cfg: Config, v: World, hid: Id, c: Choice)
    requires Core(cfg, v) && Enabled(v, Resume(hid, c))
    ensures Begun(cfg, v, Drawn(Ticked(v), c), hid, c)
    ensures v.handlers[hid].ExchangeSign? ==> v.handlers[hid].foundAt < v.hist.steps
  {
    hide Core, HandlerOK;
    var w := Drawn(Ticked(v), c);
    KeepTick(cfg, v);
    KeepDrawn(cfg, Ticked(v), c);
    HandlerKnows(cfg, w, hid);
    FoundEarlier(cfg, v, hid);
  }

  lemma FoundEarlier(cfg: Config, w: World, hid: Id)
    requires Core(cfg, w) && hid in w.handlers
    ensures w.handlers[hid].ExchangeSign? ==> w.handlers[hid].foundAt < w.hist.steps
  {
    hide Core;
    if w.handlers[hid].ExchangeSign? {
      HandlerKnows(cfg, w, hid);
    }
  }

  lemma BegunHandlers(v: World, c: Choice)
    ensures Drawn(Ticked(v), c).handlers == v.handlers
  {
  }

  lemma HandlerKnows(cfg: Config, w: World, hid: Id)
    requires Core(cfg, w) && hid in w.handlers
    ensures HandlerOK(cfg, w.hist, w.rows, w.now, hid, w.handlers[hid])
  {
    hide HandlerOK, EntriesOK;
  }

  lemma HandlersMind(cfg: Config, w: World, hid: Id)
    requires Core(cfg, w) && hid in w.handlers
    ensures Minds(w.handlers[hid])
  {
    hide Core;
    HandlerKnows(cfg, w, hid);
  }

  lemma EarlySteps(cfg: Config, v: World, w: World, hid: Id, c: Choice)
    requires Begun(cfg, v, w, hid, c) && hid in v.handlers && v.handlers == w.handlers && Past(v.handlers, v.hist)
    requires Stage(v.handlers[hid]) < 3
    requires v.handlers[hid].ExchangeSign? ==> v.handlers[hid].foundAt < v.hist.steps
    ensures Core(cfg, StepHandler(cfg, w, hid, c))
  {
    hide Core, Past, Begun, HandlerOK, Drawn, Ticked, StepAuthorizeLookup, StepAuthorizeCheck, StepAuthorizeClaim,
         StepStartGet, StepStartResolve, StepStartTtl, StepCallbackGet, StepCallbackResolve, StepCallbackVerify,
         StepExchangeConsume, StepExchangeFind, StepExchangeSign, StepTicketConsume, StepTicketSign;
    NotYet(v, hid);
    match v.handlers[hid]
    case AuthorizeLookup(q) => StepsAuthorizeLookup(cfg, v, w, hid, c, q);
    case AuthorizeCheck(q) => StepsAuthorizeCheck(cfg, v, w, hid, c, q);
    case AuthorizeClaim(q, t, readAt) => StepsAuthorizeClaim(cfg, v, w, hid, c, q, t, readAt);
    case StartGet(route, sid) => StepsStartGet(cfg, v, w, hid, c, route, sid);
    case StartResolve(sid, s) => StepsStartResolve(cfg, v, w, hid, c, sid, s);
    case StartTtl(sid, s) => StepsStartTtl(cfg, v, w, hid, c, sid, s);
    case CallbackGet(route, sid, cb) => StepsCallbackGet(cfg, v, w, hid, c, route, sid, cb);
    case CallbackResolve(route, sid, s) => StepsCallbackResolve(cfg, v, w, hid, c, route, sid, s);
    case CallbackVerify(route, sid, s) => StepsCallbackVerify(cfg, v, w, hid, c, route, sid, s);
    case ExchangeConsume(code, clientId, redirectUri) => StepsExchangeConsume(cfg, v, w, hid, c, code, clientId, redirectUri);
    case ExchangeFind(code, p) => StepsExchangeFind(cfg, v, w, hid, c, code, p);
    case ExchangeSign(code, p, email, emailVerified, foundAt) => StepsExchangeSign(cfg, v, w, hid, c, code, p, email, emailVerified, foundAt);
    case TicketConsume(code, clientId, redirectUri) => StepsTicketConsume(cfg, v, w, hid, c, code, clientId, redirectUri);
    case TicketSign(code, p) => StepsTicketSign(cfg, v, w, hid, c, code, p);
  }

  lemma LateSteps(cfg: Config, v: World, w: World, hid: Id, c: Choice)
    requires Begun(cfg, v, w, hid, c) && hid in v.handlers && v.handlers == w.handlers && Past(v.handlers, v.hist)
    requires 3 <= Stage(v.handlers[hid]) < 14
    ensures Core(cfg, StepHandler(cfg, w, hid, c))
  {
    hide Core, Past, Begun, HandlerOK, Drawn, Ticked, StepAuthorizeSave, StepStartSave, StepCloseAndEnd, StepFindIdentity,
         StepLinkSelect, StepLinkUpdate, StepLinkInsert, StepLinkClose, StepRegisterClose, StepRegisterIssue,
         StepTouch, StepCreateChallenge, StepReturnClose, StepConfirmGet, StepMarkGet, StepMarkTtl, StepMarkSave,
         StepIssueCode;
    NotYet(v, hid);
    match v.handlers[hid]
    case AuthorizeSave(q, linkUser) => StepsAuthorizeSave(cfg, v, w, hid, c, q, linkUser);
    case StartSave(sid, s, ttl) => StepsStartSave(cfg, v, w, hid, c, sid, s, ttl);
    case CloseAndEnd(sid, redirect) => StepsCloseAndEnd(cfg, v, w, hid, c, sid, redirect);
    case FindIdentity(visit) => StepsFindIdentity(cfg, v, w, hid, c, visit);
    case LinkSelect(src, a) => StepsLinkSelect(cfg, v, w, hid, c, src, a);
    case LinkUpdate(src, a, id) => StepsLinkUpdate(cfg, v, w, hid, c, src, a, id);
    case LinkInsert(src, a) => StepsLinkInsert(cfg, v, w, hid, c, src, a);
    case LinkClose(visit, r) => StepsLinkClose(cfg, v, w, hid, c, visit, r);
    case RegisterClose(visit, known) => StepsRegisterClose(cfg, v, w, hid, c, visit, known);
    case RegisterIssue(visit) => StepsRegisterIssue(cfg, v, w, hid, c, visit);
    case Touch(visit, row, user) => StepsTouch(cfg, v, w, hid, c, visit, row, user);
    case CreateChallenge(visit, r) => StepsCreateChallenge(cfg, v, w, hid, c, visit, r);
    case ReturnClose(visit, ch) => StepsReturnClose(cfg, v, w, hid, c, visit, ch);
    case ConfirmGet(visit, ch) => StepsConfirmGet(cfg, v, w, hid, c, visit, ch);
    case MarkGet(visit, ch, r) => StepsMarkGet(cfg, v, w, hid, c, visit, ch, r);
    case MarkTtl(visit, ch, r, stored) => StepsMarkTtl(cfg, v, w, hid, c, visit, ch, r, stored);
    case MarkSave(visit, ch, r, stored, ttl) => StepsMarkSave(cfg, v, w, hid, c, visit, ch, r, stored, ttl);
    case IssueCode(visit, ch, r) => StepsIssueCode(cfg, v, w, hid, c, visit, ch, r);
  }

  lemma ResumeKeepsCore(cfg: Config, v: World, hid: Id, c: Choice)
    requires Core(cfg, v) && Past(v.handlers, v.hist) && Enabled(v, Resume(hid, c))
    ensures Core(cfg, Next(cfg, v, Resume(hid, c)))
  {
    hide Core, Past, Begun, HandlerOK, Drawn, Ticked, StepHandler, Stage;
    var w := Drawn(Ticked(v), c);
    Begin(cfg, v, hid, c);
    BegunHandlers(v, c);
    UnfinishedStage(v, hid);
    if Stage(v.handlers[hid]) < 3 {
      EarlySteps(cfg, v, w, hid, c);
    } else {
      LateSteps(cfg, v, w, hid, c);
    }
  }

  lemma UnfinishedStage(w: World, hid: Id)
    requires hid in w.handlers && !w.handlers[hid].Finished?
    ensures Stage(w.handlers[hid]) < 14
  {
  }

  // ---------------------------------------------------------------- who did what

  lemma StageKept(w: World, w': World, hid: Id, c: Choice, k: Id, stage: nat)
    requires hid in w.handlers && StepAdds(w, w', hid, c) && Reached(w.handlers, k, stage)
    ensures Reached(w'.handlers, k, stage)
  {
    hide Treats, Only, Names, Writes, Stage;
  }

  lemma PastKept(w: World, w': World, hid: Id, c: Choice)
    requires hid in w.handlers && StepAdds(w, w', hid, c) && Past(w.handlers, w.hist)
    ensures Past(w'.handlers, w'.hist)
  {
    hide Treats, Reached, Stage, Writes;
    ReachedKept(w, w', hid, c);
    OwnReached(w, w', hid, c);
    TokenMinters(w, w', hid, c);
  }

  lemma OwnReached(w: World, w': World, hid: Id, c: Choice)
    requires hid in w.handlers && StepAdds(w, w', hid, c)
    ensures hid in w'.handlers
    ensures forall stage: nat :: stage <= Stage(w'.handlers[hid]) ==> Reached(w'.handlers, hid, stage)
    ensures Reached(w'.handlers, hid, 1)
  {
    hide Treats, Stage, Only, Names, Writes;
  }

  lemma TokenMinters(w: World, w': World, hid: Id, c: Choice)
    requires hid in w.handlers && StepAdds(w, w', hid, c)
    ensures forall t :: t in w'.hist.tokens ==> t in w.hist.tokens || (t.minter == hid && Reached(w'.handlers, hid, 14))
  {
    hide Treats, Stage, Only, Names, Writes;
    var h, h' := w.hist, w'.hist;
    forall t | t in h'.tokens ensures t in h.tokens || (t.minter == hid && Reached(w'.handlers, hid, 14)) {
      var i :| 0 <= i < |h'.tokens| && h'.tokens[i] == t;
      assert i < |h.tokens| ==> h.tokens[i] == t;
    }
  }

  lemma ReachedKept(w: World, w': World, hid: Id, c: Choice)
    requires hid in w.handlers && StepAdds(w, w', hid, c)
    ensures forall k, stage: nat :: Reached(w.handlers, k, stage) ==> Reached(w'.handlers, k, stage)
  {
    hide StepAdds;
    forall k, stage: nat | Reached(w.handlers, k, stage) ensures Reached(w'.handlers, k, stage) {
      StageKept(w, w', hid, c, k, stage);
    }
  }

  /** A handler that has not finished has issued nothing. */
  lemma SinglesKept(cfg: Config, w: World, w': World, hid: Id, c: Choice)
    requires hid in w.handlers && Stage(w.handlers[hid]) < 14 && StepAdds(w, w', hid, c)
    requires Past(w.handlers, w.hist) && Singles(w.hist)
    requires TokensOK(w'.hist.tokens, w'.hist.codes, w'.hist.redeemed, w'.hist.tickets, w'.hist.redeemedTickets)
    ensures Singles(w'.hist)
  {
    hide Treats, Stage, Writes, TokensOK, Past, Reached, RowsKept, Sources, Names;
    NotOwnerYet(w, hid);
    TokensSingle(w, w', hid, c);
  }

  lemma NotOwnerYet(w: World, hid: Id)
    requires Past(w.handlers, w.hist) && hid in w.handlers && Stage(w.handlers[hid]) < 14
    ensures forall k {:trigger w.hist.sessions[k]} :: k in w.hist.sessions ==> w.hist.sessions[k].creator != hid
    ensures forall k {:trigger w.hist.codes[k]} :: k in w.hist.codes ==> w.hist.codes[k].owner != hid
    ensures forall k {:trigger w.hist.tickets[k]} :: k in w.hist.tickets ==> w.hist.tickets[k].owner != hid
    ensures Stage(w.handlers[hid]) < 7 ==>
              forall k {:trigger w.hist.challenges[k]} :: k in w.hist.challenges ==> w.hist.challenges[k].owner != hid
  {
    hide Stage;
  }

  lemma TokensSingle(w: World, w': World, hid: Id, c: Choice)
    requires hid in w.handlers && Stage(w.handlers[hid]) < 14 && StepAdds(w, w', hid, c)
    requires Past(w.handlers, w.hist) && Singles(w.hist)
    requires TokensOK(w'.hist.tokens, w'.hist.codes, w'.hist.redeemed, w'.hist.tickets, w'.hist.redeemedTickets)
    ensures forall i, j {:trigger w'.hist.tokens[i], w'.hist.tokens[j]} ::
              0 <= i < j < |w'.hist.tokens| && w'.hist.tokens[i].AuthToken? == w'.hist.tokens[j].AuthToken? ==>
                w'.hist.tokens[i].code != w'.hist.tokens[j].code
  {
    hide Treats, Stage, Writes, TokensOK, Only, Names;
    var before, after := w.hist.tokens, w'.hist.tokens;
    forall i, j | 0 <= i < j < |after| && after[i].AuthToken? == after[j].AuthToken? ensures after[i].code != after[j].code {
      assert after[i] == before[i];
      if j < |before| {
        assert after[j] == before[j];
      } else if after[i].code == after[j].code {
        assert before[i] in before && after[i] in after && after[j] in after;
        assert Reached(w.handlers, before[i].minter, 14);
        SameMinter(w'.hist, after[i], after[j]);
      }
    }
  }

  lemma SameMinter(h: History, t: Token, u: Token)
    requires TokensOK(h.tokens, h.codes, h.redeemed, h.tickets, h.redeemedTickets) && t in h.tokens && u in h.tokens
    requires t.AuthToken? == u.AuthToken? && t.code == u.code
    ensures t.minter == u.minter
  {
    assert TokenOK(t, h.codes, h.redeemed, h.tickets, h.redeemedTickets);
    assert TokenOK(u, h.codes, h.redeemed, h.tickets, h.redeemedTickets);
  }

  lemma UsedKept(w: World, w': World, hid: Id, c: Choice)
    requires hid in w.handlers && StepAdds(w, w', hid, c) && UsedPast(w.handlers, w.db, w.hist.challenges)
    requires w.handlers[hid].MarkSave? ==>
               w.handlers[hid].challenge in w.hist.challenges && w.hist.challenges[w.handlers[hid].challenge].owner == hid
    requires w.handlers[hid].CreateChallenge? ==> !w.handlers[hid].record.used
    requires c.draw !in w.hist.challenges && ChallengeKey(c.draw) !in w.db
    ensures UsedPast(w'.handlers, w'.db, w'.hist.challenges)
  {
    hide Treats;
    ReachedKept(w, w', hid, c);
    assert w.handlers[hid].MarkSave? ==> Stage(w.handlers[hid]) == 11;
    hide Treats, Stage;
  }

  // ---------------------------------------------------------------- every step, every run

  lemma ResumeKeeps(cfg: Config, w: World, hid: Id, c: Choice)
    requires Inv(cfg, w) && Enabled(w, Resume(hid, c))
    ensures Inv(cfg, Next(cfg, w, Resume(hid, c)))
  {
    hide Core, Past, Singles, UsedPast, StepAdds, StepHandler, HandlerOK;
    var v := Drawn(Ticked(w), c);
    var w' := Next(cfg, w, Resume(hid, c));
    ResumeKeepsCore(cfg, w, hid, c);
    Begin(cfg, w, hid, c);
    DrawIsNew(cfg, w, v, hid, c);
    MarkerOwns(cfg, w, v, hid, c);
    HandlersMind(cfg, v, hid);
    ResumeAdds(cfg, v, hid, c);
    PastSame(w, c);
    UnfinishedStage(w, hid);
    PastKept(v, w', hid, c);
    CoreTokens(cfg, w');
    SinglesKept(cfg, v, w', hid, c);
    UsedKept(v, w', hid, c);
  }

  lemma PastSame(w: World, c: Choice)
    ensures var v := Drawn(Ticked(w), c);
            && (Past(w.handlers, w.hist) ==> Past(v.handlers, v.hist))
            && (Singles(w.hist) ==> Singles(v.hist))
            && v.handlers == w.handlers && v.db == w.db && v.hist.challenges == w.hist.challenges
  {
    hide Reached;
  }

  lemma CoreTokens(cfg: Config, w: World)
    requires Core(cfg, w)
    ensures TokensOK(w.hist.tokens, w.hist.codes, w.hist.redeemed, w.hist.tickets, w.hist.redeemedTickets)
  {
    hide TokensOK, HandlersOK, EntriesOK;
  }

  /** A handler writes only its own challenge, unused when new; a new id is no key yet. */
  lemma MarkerOwns(cfg: Config, w: World, v: World, hid: Id, c: Choice)
    requires Begun(cfg, w, v, hid, c) && c.draw !in v.hist.challenges
    ensures w.handlers[hid].MarkSave? ==>
              w.handlers[hid].challenge in v.hist.challenges && v.hist.challenges[w.handlers[hid].challenge].owner == hid
    ensures w.handlers[hid].CreateChallenge? ==> !w.handlers[hid].record.used
    ensures ChallengeKey(c.draw) !in v.db
  {
    hide Core;
    EntriesKnow(cfg, v, c.draw);
    if w.handlers[hid].MarkSave? {
    } else if w.handlers[hid].CreateChallenge? {
    }
  }

  lemma EntriesKnow(cfg: Config, w: World, ch: Id)
    requires Core(cfg, w)
    ensures ChallengeKey(ch) in w.db ==> ch in w.hist.challenges
  {
    hide HandlersOK;
  }

  lemma ElapseKeeps(cfg: Config, w: World, ms: nat)
    requires Core(cfg, w)
    ensures Core(cfg, w.(now := w.now + ms))
  {
    hide ApprovalsOK, ClaimsOK, SessionsOK, LoginsOK, UsesOK, LinksOK, OriginsOK, ChallengesOK, CodesOK, TicketsOK,
         TokensOK, Spent, ClaimsHeld, ClaimsApart, TableOK, DrawnOK, EntriesOK, HandlersOK;
    Carry(cfg, w, w.(now := w.now + ms));
  }

  lemma AcceptKeeps(cfg: Config, w: World, hid: Id, h: Handler)
    requires Inv(cfg, w) && hid !in w.handlers && IsEntry(h)
    ensures Inv(cfg, Goto(w, hid, h))
  {
    hide Core, Past, Singles, UsedPast;
    EntryKnows(cfg, w, hid, h);
    KeepMove(cfg, w, hid, h);
    AcceptPast(w, hid, h);
  }

  lemma EntryKnows(cfg: Config, w: World, hid: Id, h: Handler)
    requires IsEntry(h)
    ensures HandlerOK(cfg, w.hist, w.rows, w.now, hid, h)
  {
  }

  lemma AcceptPast(w: World, hid: Id, h: Handler)
    requires hid !in w.handlers && Past(w.handlers, w.hist) && UsedPast(w.handlers, w.db, w.hist.challenges)
    ensures Past(w.handlers[hid := h], w.hist) && UsedPast(w.handlers[hid := h], w.db, w.hist.challenges)
  {
    AcceptReached(w.handlers, hid, h);
    hide Reached;
  }

  lemma AcceptReached(handlers: map<Id, Handler>, hid: Id, h: Handler)
    requires hid !in handlers
    ensures forall k, stage: nat :: Reached(handlers, k, stage) ==> Reached(handlers[hid := h], k, stage)
  {
    hide Treats, Stage;
  }

  lemma TickKeeps(cfg: Config, w: World)
    requires Inv(cfg, w)
    ensures Inv(cfg, Ticked(w))
  {
    hide Core, Past, Singles, UsedPast;
    KeepTick(cfg, w);
    TickedPast(w);
  }

  lemma TickedPast(w: World)
    ensures Past(w.handlers, w.hist) ==> Past(w.handlers, Ticked(w).hist)
    ensures Singles(w.hist) ==> Singles(Ticked(w).hist)
  {
    hide Reached;
  }

  /** Every action keeps the invariant. */
  lemma StepKeeps(cfg: Config, w: World, a: Action)
    requires Inv(cfg, w) && Enabled(w, a)
    ensures Inv(cfg, Next(cfg, w, a))
  {
    hide Core, Past, Singles, UsedPast, StepHandler, IsEntry;
    match a
    case Resume(hid, c) => ResumeKeeps(cfg, w, hid, c);
    case Accept(hid, h) =>
      TickKeeps(cfg, w);
      AcceptKeeps(cfg, Ticked(w), hid, h);
    case Elapse(ms) =>
      TickKeeps(cfg, w);
      ElapseKeeps(cfg, Ticked(w), ms);
    case ChangeClients(cs) =>
      TickKeeps(cfg, w);
      ClientsKeep(cfg, Ticked(w), cs);
    case ChangeStatus(id, s) =>
      TickKeeps(cfg, w);
      KeepRow(cfg, Ticked(w), id, w.rows[id].(status := s));
    case Fail(hid) =>
      TickKeeps(cfg, w);
      FailKeeps(cfg, Ticked(w), hid);
  }

  /** A command may fail, or its reply be lost: the handler gives up where it is. */
  lemma FailKeeps(cfg: Config, w: World, hid: Id)
    requires Inv(cfg, w) && hid in w.handlers
    ensures Inv(cfg, End(w, hid))
  {
    hide Core, Past, Singles, UsedPast;
    KeepMove(cfg, w, hid, Finished);
    FailPast(w, hid);
  }

  lemma FailPast(w: World, hid: Id)
    requires hid in w.handlers && Past(w.handlers, w.hist) && UsedPast(w.handlers, w.db, w.hist.challenges)
    ensures Past(w.handlers[hid := Finished], w.hist) && UsedPast(w.handlers[hid := Finished], w.db, w.hist.challenges)
  {
    FailReached(w.handlers, hid);
    hide Reached;
  }

  lemma FailReached(handlers: map<Id, Handler>, hid: Id)
    requires hid in handlers
    ensures forall k, stage: nat :: Reached(handlers, k, stage) ==> Reached(handlers[hid := Finished], k, stage)
  {
    StageIsLast(handlers[hid]);
    FinishedIsLast();
    hide Stage;
  }

  lemma StageIsLast(h: Handler)
    ensures Stage(h) <= 14
  {
  }

  lemma ClientsKeep(cfg: Config, w: World, cs: Clients)
    requires Core(cfg, w)
    ensures Core(cfg, w.(clients := cs))
  {
    hide ApprovalsOK, ClaimsOK, SessionsOK, LoginsOK, UsesOK, LinksOK, OriginsOK, ChallengesOK, CodesOK, TicketsOK,
         TokensOK, Spent, ClaimsHeld, ClaimsApart, TableOK, DrawnOK, EntriesOK, HandlersOK;
  }

  lemma InitialInv(cfg: Config, w: World)
    requires cfg.Valid() && Initial(w)
    ensures Inv(cfg, w)
  {
  }

  /** The invariant holds in every state of every run. */
  lemma {:induction false} RunInv(cfg: Config, run: seq<World>, acts: seq<Action>, i: nat)
    requires IsRun(cfg, run, acts) && i < |run|
    ensures Inv(cfg, run[i])
  {
    hide Inv, Initial, Next, Enabled;
    if i == 0 {
      InitialInv(cfg, run[0]);
    } else {
      RunInv(cfg, run, acts, i - 1);
      assert Enabled(run[i - 1], acts[i - 1]);
      StepKeeps(cfg, run[i - 1], acts[i - 1]);
    }
  }
}
