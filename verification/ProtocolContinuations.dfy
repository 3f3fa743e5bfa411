/** How a session gets a second outcome: from every state at risk, the continuation that leads there. */
module ProtocolContinuations {
  import opened Wrappers
  import opened Records
  import opened RedisKeyspace
  import opened IdentityTable
  import opened Registry
  import opened TenantKey
  import opened Protocol
  import opened ProtocolInvariant
  import opened ProtocolSteps
  import opened ProtocolPast
  import opened ProtocolRuns
  import opened ProtocolTraces
  import opened ProtocolTheorems
  import opened ProtocolGuards
  import opened ProtocolExhaustion
  import S = ServiceSteps

  predicate Attempts(cfg: Config) {
    cfg.challengeMaxAttempts >= 1
  }

  /** Some continuation lets this callback answer. What can stop it: its challenge has expired before
      it was confirmed, or the configuration allows no attempt and it is on its way to a challenge. */
  ghost predicate CanAnswer(cfg: Config, w: World, h: Handler) {
    && Answers(h)
    && match h
       case FindIdentity(v) =>
         || Attempts(cfg) || v.session.purpose == "registration"
         || FindByKey(w.rows, ProviderOf(v.route), SubjectOf(v.route, v.who.sub)).None?
       case LinkSelect(_, a) =>
         Attempts(cfg) || (var found := FindByKey(w.rows, a.provider, a.subject); found.Some? ==> w.rows[found.value].user != a.user)
       case LinkUpdate(_, _, _) => Attempts(cfg)
       case LinkClose(_, r) => Attempts(cfg) || r.AlreadyLinked?
       case Touch(_, _, _) => Attempts(cfg)
       case CreateChallenge(_, _) => Attempts(cfg)
       case ReturnClose(_, ch) => Attempts(cfg) && Live(w.db, ChallengeKey(ch), w.now)
       case ConfirmGet(_, ch) => Attempts(cfg) && Live(w.db, ChallengeKey(ch), w.now)
       case _ => true
  }

  ghost predicate CanAnswerFor(cfg: Config, w: World, hid: Id, sid: Id) {
    hid in w.handlers && Worked(w.handlers[hid]) == Some(sid) && CanAnswer(cfg, w, w.handlers[hid])
  }

  /** The session is live, or a start holds a copy to write back, or the callbacks in flight that can
      still answer make, with the answers given, two. */
  ghost predicate AtRisk(cfg: Config, w: World, sid: Id) {
    || Live(w.db, SessionKey(sid), w.now)
    || (exists k {:trigger w.handlers[k]} :: k in w.handlers && Worked(w.handlers[k]) == Some(sid) && Starts(w.handlers[k]))
    || (exists a, b {:trigger CanAnswerFor(cfg, w, a, sid), CanAnswerFor(cfg, w, b, sid)} ::
          a != b && CanAnswerFor(cfg, w, a, sid) && CanAnswerFor(cfg, w, b, sid))
    || (!NoOutput(w.hist.outputs, sid) && exists k :: CanAnswerFor(cfg, w, k, sid))
    || !AtMostOneOutput(w.hist.outputs, sid)
  }

  // ---------------------------------------------------------------- one step on the way to an answer

  ghost function Bound(s: set<Id>): (n: Id)
    ensures forall x {:trigger x in s} :: x in s ==> x < n
  {
    if s == {} then 0
    else
      var x :| x in s;
      var rest := Bound(s - {x});
      assert forall y :: y in s ==> y == x || y in s - {x};
      if x < rest then rest else x + 1
  }

  /** What every step of a driven handler is given: the network calls succeed, the identity does not
      verify. */
  function Given(id: Id): S.Randoms {
    S.Randoms(id, 0, 0, id, id, id, id, true, false, Verified("", None, false))
  }

  /** The handler's next step, with a new id. */
  ghost function Stepped(cfg: Config, w: World, hid: Id): World
    requires hid in w.handlers
  {
    var r := Given(Bound(w.hist.drawn));
    S.Moved(cfg, Drawn(Ticked(w), S.Pick(r, w.handlers[hid])), hid, r)
  }

  lemma Step(cfg: Config, run: seq<World>, acts: seq<Action>, hid: Id) returns (run': seq<World>, acts': seq<Action>)
    requires IsRun(cfg, run, acts) && |run| == |acts| + 1 && hid in run[|acts|].handlers && !run[|acts|].handlers[hid].Finished?
    ensures IsRun(cfg, run', acts') && |run'| == |acts'| + 1 && run <= run' && acts <= acts'
    ensures run'[|acts'|] == Stepped(cfg, run[|acts|], hid)
  {
    hide IsRun, StepHandler;
    var w := run[|acts|];
    var c := S.Pick(Given(Bound(w.hist.drawn)), w.handlers[hid]);
    run', acts' := Take(cfg, run, acts, Resume(hid, c));
  }

  ghost predicate SameEntry(db: Keyspace, db': Keyspace, k: Key) {
    (k in db <==> k in db') && (k in db ==> db'[k] == db[k])
  }

  /** Handler `k` is where it was, and what it depends on is unchanged. */
  ghost predicate Spares(w: World, w': World, k: Id) {
    k in w.handlers ==>
      && w'.now == w.now && k in w'.handlers && w'.handlers[k] == w.handlers[k]
      && (w.handlers[k].ReturnClose? || w.handlers[k].ConfirmGet? ==> SameEntry(w.db, w'.db, ChallengeKey(w.handlers[k].challenge)))
  }

  /** The handler has answered, or is a step closer to it. */
  ghost predicate Advances(cfg: Config, w: World, w': World, hid: Id, sid: Id)
    requires hid in w.handlers
  {
    || (w'.hist.outputs == w.hist.outputs && CanAnswerFor(cfg, w', hid, sid) && Stage(w'.handlers[hid]) > Stage(w.handlers[hid]))
    || (exists o :: w'.hist.outputs == w.hist.outputs + [(sid, o)])
  }

  lemma AdvanceResolve(cfg: Config, w: World, hid: Id, sid: Id, k: Id)
    requires CanAnswerFor(cfg, w, hid, sid) && k != hid && w.handlers[hid].CallbackResolve?
    ensures Advances(cfg, w, Stepped(cfg, w, hid), hid, sid) && Spares(w, Stepped(cfg, w, hid), k)
  {
    hide S.Moved;
    var h, r := w.handlers[hid], Given(Bound(w.hist.drawn));
    var v := Drawn(Ticked(w), S.Pick(r, h));
    S.EffectCallbackResolve(cfg, v, hid, r, h.route, h.sid, h.session);
  }

  lemma AdvanceVerify(cfg: Config, w: World, hid: Id, sid: Id, k: Id)
    requires CanAnswerFor(cfg, w, hid, sid) && k != hid && w.handlers[hid].CallbackVerify?
    ensures Advances(cfg, w, Stepped(cfg, w, hid), hid, sid) && Spares(w, Stepped(cfg, w, hid), k)
  {
    hide S.Moved;
    var h, r := w.handlers[hid], Given(Bound(w.hist.drawn));
    var v := Drawn(Ticked(w), S.Pick(r, h));
    S.EffectCallbackVerify(cfg, v, hid, r, h.route, h.sid, h.session);
  }

  lemma AdvanceClose(cfg: Config, w: World, hid: Id, sid: Id, k: Id)
    requires CanAnswerFor(cfg, w, hid, sid) && k != hid && w.handlers[hid].CloseAndEnd?
    ensures Advances(cfg, w, Stepped(cfg, w, hid), hid, sid) && Spares(w, Stepped(cfg, w, hid), k)
  {
    hide S.Moved;
    var h, r := w.handlers[hid], Given(Bound(w.hist.drawn));
    var v := Drawn(Ticked(w), S.Pick(r, h));
    S.EffectCloseAndEnd(cfg, v, hid, r, h.sid, h.redirect);
  }

  lemma AdvanceFind(cfg: Config, w: World, hid: Id, sid: Id, k: Id)
    requires CanAnswerFor(cfg, w, hid, sid) && k != hid && w.handlers[hid].FindIdentity?
    ensures Advances(cfg, w, Stepped(cfg, w, hid), hid, sid) && Spares(w, Stepped(cfg, w, hid), k)
    ensures var w' := Stepped(cfg, w, hid);
            && w'.rows == w.rows && w'.db == w.db && w'.hist.outputs == w.hist.outputs
            && !w'.handlers[hid].FindIdentity? && !w'.handlers[hid].LinkSelect?
  {
    hide S.Moved, FindByKey, ProviderOf, SubjectOf;
    var h, r := w.handlers[hid], Given(Bound(w.hist.drawn));
    var v := Drawn(Ticked(w), S.Pick(r, h));
    S.EffectFindIdentity(cfg, v, hid, r, h.visit);
  }

  lemma AdvanceSelect(cfg: Config, w: World, hid: Id, sid: Id, k: Id)
    requires CanAnswerFor(cfg, w, hid, sid) && k != hid && w.handlers[hid].LinkSelect?
    ensures Advances(cfg, w, Stepped(cfg, w, hid), hid, sid) && Spares(w, Stepped(cfg, w, hid), k)
    ensures var w' := Stepped(cfg, w, hid);
            && w'.rows == w.rows && w'.db == w.db && w'.hist.outputs == w.hist.outputs
            && !w'.handlers[hid].FindIdentity? && !w'.handlers[hid].LinkSelect?
  {
    hide S.Moved, FindByKey;
    var h, r := w.handlers[hid], Given(Bound(w.hist.drawn));
    var v := Drawn(Ticked(w), S.Pick(r, h));
    S.EffectLinkSelect(cfg, v, hid, r, h.source, h.args);
  }

  lemma AdvanceUpdate(cfg: Config, w: World, hid: Id, sid: Id, k: Id)
    requires CanAnswerFor(cfg, w, hid, sid) && k != hid && w.handlers[hid].LinkUpdate?
    requires w.handlers[hid].row in w.rows
    ensures Advances(cfg, w, Stepped(cfg, w, hid), hid, sid) && Spares(w, Stepped(cfg, w, hid), k)
  {
    hide S.Moved, Refreshed;
    var h, r := w.handlers[hid], Given(Bound(w.hist.drawn));
    var v := Drawn(Ticked(w), S.Pick(r, h));
    S.EffectLinkUpdate(cfg, v, hid, r, h.source, h.args, h.row);
  }

  lemma AdvanceInsert(cfg: Config, w: World, hid: Id, sid: Id, k: Id)
    requires CanAnswerFor(cfg, w, hid, sid) && k != hid && w.handlers[hid].LinkInsert?
    requires Attempts(cfg) || Conflicts(w.rows, w.handlers[hid].args)
    ensures Advances(cfg, w, Stepped(cfg, w, hid), hid, sid) && Spares(w, Stepped(cfg, w, hid), k)
  {
    hide S.Moved, Inserted, Conflicts;
    var h, r := w.handlers[hid], Given(Bound(w.hist.drawn));
    var v := Drawn(Ticked(w), S.Pick(r, h));
    S.EffectLinkInsert(cfg, v, hid, r, h.source, h.args);
  }

  lemma AdvanceLinkClose(cfg: Config, w: World, hid: Id, sid: Id, k: Id)
    requires CanAnswerFor(cfg, w, hid, sid) && k != hid && w.handlers[hid].LinkClose?
    requires w.handlers[hid].visit.session.linkKisUserId.Some?
    ensures Advances(cfg, w, Stepped(cfg, w, hid), hid, sid) && Spares(w, Stepped(cfg, w, hid), k)
  {
    hide S.Moved, RecordFor;
    var h, r := w.handlers[hid], Given(Bound(w.hist.drawn));
    var v := Drawn(Ticked(w), S.Pick(r, h));
    S.EffectLinkClose(cfg, v, hid, r, h.visit, h.result);
  }

  lemma AdvanceRegisterClose(cfg: Config, w: World, hid: Id, sid: Id, k: Id)
    requires CanAnswerFor(cfg, w, hid, sid) && k != hid && w.handlers[hid].RegisterClose?
    ensures Advances(cfg, w, Stepped(cfg, w, hid), hid, sid) && Spares(w, Stepped(cfg, w, hid), k)
  {
    hide S.Moved;
    var h, r := w.handlers[hid], Given(Bound(w.hist.drawn));
    var v := Drawn(Ticked(w), S.Pick(r, h));
    S.EffectRegisterClose(cfg, v, hid, r, h.visit, h.known);
  }

  lemma AdvanceRegisterIssue(cfg: Config, w: World, hid: Id, sid: Id, k: Id)
    requires CanAnswerFor(cfg, w, hid, sid) && k != hid && w.handlers[hid].RegisterIssue?
    ensures Advances(cfg, w, Stepped(cfg, w, hid), hid, sid) && Spares(w, Stepped(cfg, w, hid), k)
  {
    hide S.Moved, TicketFor;
    var h, r := w.handlers[hid], Given(Bound(w.hist.drawn));
    var v := Drawn(Ticked(w), S.Pick(r, h));
    S.EffectRegisterIssue(cfg, v, hid, r, h.visit);
  }

  lemma AdvanceTouch(cfg: Config, w: World, hid: Id, sid: Id, k: Id)
    requires CanAnswerFor(cfg, w, hid, sid) && k != hid && w.handlers[hid].Touch?
    ensures Advances(cfg, w, Stepped(cfg, w, hid), hid, sid) && Spares(w, Stepped(cfg, w, hid), k)
  {
    hide S.Moved, RecordFor;
    var h, r := w.handlers[hid], Given(Bound(w.hist.drawn));
    var v := Drawn(Ticked(w), S.Pick(r, h));
    S.EffectTouch(cfg, v, hid, r, h.visit, h.row, h.user);
  }

  lemma AdvanceCreate(cfg: Config, w: World, hid: Id, sid: Id, k: Id)
    requires CanAnswerFor(cfg, w, hid, sid) && k != hid && w.handlers[hid].CreateChallenge?
    requires cfg.Valid() && (k in w.handlers && (w.handlers[k].ReturnClose? || w.handlers[k].ConfirmGet?) ==> w.handlers[k].challenge in w.hist.drawn)
    ensures Advances(cfg, w, Stepped(cfg, w, hid), hid, sid) && Spares(w, Stepped(cfg, w, hid), k)
  {
    hide S.Moved;
    var h, r := w.handlers[hid], Given(Bound(w.hist.drawn));
    var v := Drawn(Ticked(w), S.Pick(r, h));
    S.EffectCreateChallenge(cfg, v, hid, r, h.visit, h.record);
  }

  lemma AdvanceReturn(cfg: Config, w: World, hid: Id, sid: Id, k: Id)
    requires CanAnswerFor(cfg, w, hid, sid) && k != hid && w.handlers[hid].ReturnClose?
    ensures Advances(cfg, w, Stepped(cfg, w, hid), hid, sid) && Spares(w, Stepped(cfg, w, hid), k)
  {
    hide S.Moved;
    var h, r := w.handlers[hid], Given(Bound(w.hist.drawn));
    var v := Drawn(Ticked(w), S.Pick(r, h));
    S.EffectReturnClose(cfg, v, hid, r, h.visit, h.challenge);
  }

  lemma AdvanceConfirm(cfg: Config, w: World, hid: Id, sid: Id, k: Id)
    requires CanAnswerFor(cfg, w, hid, sid) && k != hid && w.handlers[hid].ConfirmGet?
    requires var e := w.db[ChallengeKey(w.handlers[hid].challenge)]; e.value.ChallengeValue? && Confirmable(e.value.challenge)
    ensures Advances(cfg, w, Stepped(cfg, w, hid), hid, sid) && Spares(w, Stepped(cfg, w, hid), k)
  {
    hide S.Moved, Confirmable;
    var h, r := w.handlers[hid], Given(Bound(w.hist.drawn));
    var v := Drawn(Ticked(w), S.Pick(r, h));
    assert ReadChallenge(v, h.challenge) == Some(w.db[ChallengeKey(h.challenge)].value.challenge);
    S.EffectConfirmGet(cfg, v, hid, r, h.visit, h.challenge);
  }

  lemma AdvanceMark(cfg: Config, w: World, hid: Id, sid: Id, k: Id)
    requires CanAnswerFor(cfg, w, hid, sid) && k != hid && w.handlers[hid].MarkGet?
    ensures Advances(cfg, w, Stepped(cfg, w, hid), hid, sid) && Spares(w, Stepped(cfg, w, hid), k)
  {
    hide S.Moved, ReadChallenge;
    var h, r := w.handlers[hid], Given(Bound(w.hist.drawn));
    var v := Drawn(Ticked(w), S.Pick(r, h));
    S.EffectMarkGet(cfg, v, hid, r, h.visit, h.challenge, h.record);
  }

  lemma AdvanceTtl(cfg: Config, w: World, hid: Id, sid: Id, k: Id)
    requires CanAnswerFor(cfg, w, hid, sid) && k != hid && w.handlers[hid].MarkTtl?
    ensures Advances(cfg, w, Stepped(cfg, w, hid), hid, sid) && Spares(w, Stepped(cfg, w, hid), k)
  {
    hide S.Moved, TtlReply;
    var h, r := w.handlers[hid], Given(Bound(w.hist.drawn));
    var v := Drawn(Ticked(w), S.Pick(r, h));
    S.EffectMarkTtl(cfg, v, hid, r, h.visit, h.challenge, h.record, h.stored);
  }

  lemma AdvanceSave(cfg: Config, w: World, hid: Id, sid: Id, k: Id)
    requires CanAnswerFor(cfg, w, hid, sid) && k != hid && w.handlers[hid].MarkSave?
    requires k in w.handlers && (w.handlers[k].ReturnClose? || w.handlers[k].ConfirmGet?) ==> w.handlers[k].challenge != w.handlers[hid].challenge
    ensures Advances(cfg, w, Stepped(cfg, w, hid), hid, sid) && Spares(w, Stepped(cfg, w, hid), k)
  {
    hide S.Moved;
    var h, r := w.handlers[hid], Given(Bound(w.hist.drawn));
    var v := Drawn(Ticked(w), S.Pick(r, h));
    S.EffectMarkSave(cfg, v, hid, r, h.visit, h.challenge, h.record, h.stored, h.ttl);
  }

  lemma AdvanceIssue(cfg: Config, w: World, hid: Id, sid: Id, k: Id)
    requires CanAnswerFor(cfg, w, hid, sid) && k != hid && w.handlers[hid].IssueCode?
    requires w.handlers[hid].record.kisUserId.Some? && w.handlers[hid].record.authIdentityId.Some?
    ensures Advances(cfg, w, Stepped(cfg, w, hid), hid, sid) && Spares(w, Stepped(cfg, w, hid), k)
  {
    hide S.Moved, PayloadFor;
    var h, r := w.handlers[hid], Given(Bound(w.hist.drawn));
    var v := Drawn(Ticked(w), S.Pick(r, h));
    S.EffectIssueCode(cfg, v, hid, r, h.visit, h.challenge, h.record);
  }

  // ---------------------------------------------------------------- what the invariant knows at these steps

  lemma UpdaterKnows(cfg: Config, w: World, hid: Id)
    requires Core(cfg, w) && hid in w.handlers && (w.handlers[hid].LinkUpdate? || w.handlers[hid].LinkClose?)
    ensures w.handlers[hid].LinkUpdate? ==> w.handlers[hid].row in w.rows
    ensures w.handlers[hid].LinkClose? ==> w.handlers[hid].visit.session.linkKisUserId.Some?
  {
    hide Core, SourceOK;
    HandlerKnows(cfg, w, hid);
  }

  predicate AwaitsConfirmation(h: Handler) {
    h.ReturnClose? || h.ConfirmGet?
  }

  /** The challenge of a handler that is to confirm it was drawn before, and is its own. */
  lemma ChallengeOfIsOwn(cfg: Config, w: World, hid: Id)
    requires Core(cfg, w) && hid in w.handlers && (AwaitsConfirmation(w.handlers[hid]) || w.handlers[hid].MarkSave?)
    ensures w.handlers[hid].challenge in w.hist.challenges && w.hist.challenges[w.handlers[hid].challenge].owner == hid
    ensures w.handlers[hid].challenge in w.hist.drawn
  {
    hide Core;
    ConfirmerOwns(cfg, w, hid);
    ChallengesDrawn(cfg, w);
  }

  lemma ChallengesDrawn(cfg: Config, w: World)
    requires Core(cfg, w)
    ensures w.hist.challenges.Keys <= w.hist.drawn && w.hist.sessions.Keys <= w.hist.drawn
  {
    hide HandlersOK, EntriesOK;
  }

  lemma IssuerKnows(cfg: Config, w: World, hid: Id)
    requires Core(cfg, w) && hid in w.handlers && w.handlers[hid].IssueCode?
    ensures w.handlers[hid].record.kisUserId.Some? && w.handlers[hid].record.authIdentityId.Some?
  {
    hide Core, VisitOK;
    HandlerKnows(cfg, w, hid);
    ChallengeIs(cfg, w, w.handlers[hid].challenge);
  }

  lemma InvParts(cfg: Config, w: World)
    requires Inv(cfg, w)
    ensures Core(cfg, w) && UsedPast(w.handlers, w.db, w.hist.challenges) && cfg.Valid()
  {
    hide Past, UsedPast, Singles, HandlersOK, EntriesOK;
  }

  lemma ConfirmerReads(cfg: Config, w: World, hid: Id)
    requires Inv(cfg, w) && hid in w.handlers && w.handlers[hid].ConfirmGet? && Attempts(cfg)
    requires Live(w.db, ChallengeKey(w.handlers[hid].challenge), w.now)
    ensures var e := w.db[ChallengeKey(w.handlers[hid].challenge)]; e.value.ChallengeValue? && Confirmable(e.value.challenge)
  {
    hide Inv, Core, UsedPast, Confirmable;
    InvParts(cfg, w);
    ChallengeOfIsOwn(cfg, w, hid);
    ChallengeReadable(cfg, w, hid, w.handlers[hid].challenge);
  }

  /** A callback that can answer has a step that answers or brings it closer, and that no other
      handler notices. */
  lemma Advance(cfg: Config, w: World, hid: Id, sid: Id, k: Id)
    requires Inv(cfg, w) && CanAnswerFor(cfg, w, hid, sid) && k != hid
    requires w.handlers[hid].LinkInsert? ==> Attempts(cfg) || Conflicts(w.rows, w.handlers[hid].args)
    ensures Advances(cfg, w, Stepped(cfg, w, hid), hid, sid) && Spares(w, Stepped(cfg, w, hid), k)
  {
    hide Inv, Core, UsedPast, Stepped, Advances, Spares, Confirmable, Conflicts;
    InvParts(cfg, w);
    if k in w.handlers && AwaitsConfirmation(w.handlers[k]) {
      ChallengeOfIsOwn(cfg, w, k);
    }
    match w.handlers[hid]
    case CallbackResolve(_, _, _) => AdvanceResolve(cfg, w, hid, sid, k);
    case CallbackVerify(_, _, _) => AdvanceVerify(cfg, w, hid, sid, k);
    case CloseAndEnd(_, _) => AdvanceClose(cfg, w, hid, sid, k);
    case FindIdentity(_) => AdvanceFind(cfg, w, hid, sid, k);
    case LinkSelect(_, _) => AdvanceSelect(cfg, w, hid, sid, k);
    case LinkUpdate(_, _, _) =>
      UpdaterKnows(cfg, w, hid);
      AdvanceUpdate(cfg, w, hid, sid, k);
    case LinkInsert(_, _) => AdvanceInsert(cfg, w, hid, sid, k);
    case LinkClose(_, _) =>
      UpdaterKnows(cfg, w, hid);
      AdvanceLinkClose(cfg, w, hid, sid, k);
    case RegisterClose(_, _) => AdvanceRegisterClose(cfg, w, hid, sid, k);
    case RegisterIssue(_) => AdvanceRegisterIssue(cfg, w, hid, sid, k);
    case Touch(_, _, _) => AdvanceTouch(cfg, w, hid, sid, k);
    case CreateChallenge(_, _) => AdvanceCreate(cfg, w, hid, sid, k);
    case ReturnClose(_, _) => AdvanceReturn(cfg, w, hid, sid, k);
    case ConfirmGet(_, _) =>
      ConfirmerReads(cfg, w, hid);
      AdvanceConfirm(cfg, w, hid, sid, k);
    case MarkGet(_, _, _) => AdvanceMark(cfg, w, hid, sid, k);
    case MarkTtl(_, _, _, _) => AdvanceTtl(cfg, w, hid, sid, k);
    case MarkSave(_, _, _, _, _) =>
      ChallengeOfIsOwn(cfg, w, hid);
      AdvanceSave(cfg, w, hid, sid, k);
    case IssueCode(_, _, _) =>
      IssuerKnows(cfg, w, hid);
      AdvanceIssue(cfg, w, hid, sid, k);
  }

  // ---------------------------------------------------------------- making room for a refusal

  /** Only handler `n` and the table are different. */
  ghost predicate OnlyTable(w: World, w': World, n: Id) {
    && w'.now == w.now && w'.db == w.db && w'.hist.outputs == w.hist.outputs
    && (forall k {:trigger w.handlers[k]} :: k in w.handlers && k != n ==> k in w'.handlers && w'.handlers[k] == w.handlers[k])
  }

  lemma OccupySelects(cfg: Config, w: World, n: Id, a: LinkArgs)
    requires n in w.handlers && w.handlers[n] == LinkSelect(FromServer, a) && !Conflicts(w.rows, a)
    ensures var w' := Stepped(cfg, w, n);
            OnlyTable(w, w', n) && w'.rows == w.rows && n in w'.handlers && w'.handlers[n] == LinkInsert(FromServer, a)
  {
    hide S.Moved;
    var r := Given(Bound(w.hist.drawn));
    S.EffectLinkSelect(cfg, Drawn(Ticked(w), S.Pick(r, w.handlers[n])), n, r, FromServer, a);
  }

  lemma OccupyInserts(cfg: Config, w: World, n: Id, a: LinkArgs)
    requires n in w.handlers && w.handlers[n] == LinkInsert(FromServer, a) && !Conflicts(w.rows, a)
    ensures var w' := Stepped(cfg, w, n); OnlyTable(w, w', n) && Conflicts(w'.rows, a)
  {
    var r := Given(Bound(w.hist.drawn));
    var v := Drawn(Ticked(w), S.Pick(r, w.handlers[n]));
    S.EffectLinkInsert(cfg, v, n, r, FromServer, a);
    hide S.Moved;
    var w' := Stepped(cfg, w, n);
    assert w'.rows == Inserted(w.rows, r.uuid, a);
    assert HasKey(w'.rows[r.uuid], a.provider, a.subject);
  }

  lemma OnlyTableSpares(w: World, w': World, n: Id)
    requires OnlyTable(w, w', n)
    ensures forall k :: k != n ==> Spares(w, w', k)
  {
  }

  /** Before a callback's INSERT, a server call may link the same triple. */
  lemma Occupy(cfg: Config, run: seq<World>, acts: seq<Action>, a: LinkArgs) returns (run': seq<World>, acts': seq<Action>)
    requires IsRun(cfg, run, acts) && |run| == |acts| + 1 && !Conflicts(run[|acts|].rows, a)
    requires a.provider != "" && a.subject != "" && a.user != ""
    ensures IsRun(cfg, run', acts') && |run'| == |acts'| + 1 && run <= run' && acts <= acts'
    ensures Conflicts(run'[|acts'|].rows, a) && run'[|acts'|].hist.outputs == run[|acts|].hist.outputs
    ensures forall k {:trigger k in run[|acts|].handlers} :: k in run[|acts|].handlers ==> Spares(run[|acts|], run'[|acts'|], k)
  {
    hide IsRun, Stepped, Conflicts;
    var w := run[|acts|];
    var n := Bound(w.handlers.Keys);
    var called := LinkSelect(FromServer, a);
    run', acts' := Take(cfg, run, acts, Accept(n, called));
    var w1 := run'[|acts'|];
    assert OnlyTable(w, w1, n);
    OccupySelects(cfg, w1, n, a);
    run', acts' := Step(cfg, run', acts', n);
    var w2 := run'[|acts'|];
    OccupyInserts(cfg, w2, n, a);
    run', acts' := Step(cfg, run', acts', n);
    OnlyTableSpares(w, run'[|acts'|], n);
  }

  lemma InserterAsks(cfg: Config, w: World, hid: Id)
    requires Core(cfg, w) && hid in w.handlers && w.handlers[hid].LinkInsert? && w.handlers[hid].source.FromCallback?
    ensures var a := w.handlers[hid].args; a.provider != "" && a.subject != "" && a.user != ""
  {
    hide Core;
    HandlerKnows(cfg, w, hid);
    LoginIs(cfg, w, hid);
  }

  lemma SparesOn(w: World, w1: World, w2: World, k: Id)
    requires Spares(w, w1, k) && Spares(w1, w2, k)
    ensures Spares(w, w2, k)
  {
  }

  // ---------------------------------------------------------------- driving callbacks to their answers

  ghost predicate Blocked(cfg: Config, w: World, h: Handler) {
    h.LinkInsert? && !Attempts(cfg) && !Conflicts(w.rows, h.args)
  }

  /** A callback that can answer is led to its answer. */
  lemma {:induction false} Drive(cfg: Config, run: seq<World>, acts: seq<Action>, hid: Id, sid: Id, k: Id)
    returns (run': seq<World>, acts': seq<Action>)
    requires IsRun(cfg, run, acts) && |run| == |acts| + 1 && CanAnswerFor(cfg, run[|acts|], hid, sid) && k != hid
    ensures IsRun(cfg, run', acts') && |run'| == |acts'| + 1 && run <= run' && acts <= acts'
    ensures exists o :: run'[|acts'|].hist.outputs == run[|acts|].hist.outputs + [(sid, o)]
    ensures Spares(run[|acts|], run'[|acts'|], k)
    decreases 14 - Stage(run[|acts|].handlers[hid]), Blocked(cfg, run[|acts|], run[|acts|].handlers[hid])
  {
    hide IsRun, Inv, Core, Stepped, Spares, Conflicts, Stage;
    var w := run[|acts|];
    var h := w.handlers[hid];
    CanAnswerIsLive(cfg, w, hid, sid);
    RunInv(cfg, run, acts, |acts|);
    if Blocked(cfg, w, h) {
      InvCore(cfg, w);
      BlockedIsCallback(h);
      InserterAsks(cfg, w, hid);
      run', acts' := Occupy(cfg, run, acts, h.args);
      var w1 := run'[|acts'|];
      BlockedNoMore(cfg, w, w1, hid, sid);
      SparesAbsent(w, w1, k);
      run', acts' := Drive(cfg, run', acts', hid, sid, k);
      SparesOn(w, w1, run'[|acts'|], k);
    } else {
      Advance(cfg, w, hid, sid, k);
      run', acts' := Step(cfg, run, acts, hid);
      var w1 := run'[|acts'|];
      if w1.hist.outputs == w.hist.outputs {
        StageIsLast(w1.handlers[hid]);
        run', acts' := Drive(cfg, run', acts', hid, sid, k);
        SparesOn(w, w1, run'[|acts'|], k);
      }
    }
  }

  lemma BlockedIsCallback(h: Handler)
    requires h.LinkInsert? && Answers(h)
    ensures h.source.FromCallback?
  {
  }

  lemma CanAnswerIsLive(cfg: Config, w: World, hid: Id, sid: Id)
    requires CanAnswerFor(cfg, w, hid, sid)
    ensures !w.handlers[hid].Finished? && Answers(w.handlers[hid])
  {
  }

  lemma BlockedNoMore(cfg: Config, w: World, w': World, hid: Id, sid: Id)
    requires CanAnswerFor(cfg, w, hid, sid) && Blocked(cfg, w, w.handlers[hid]) && Spares(w, w', hid) && Conflicts(w'.rows, w.handlers[hid].args)
    ensures CanAnswerFor(cfg, w', hid, sid) && !Blocked(cfg, w', w'.handlers[hid]) && w'.handlers[hid] == w.handlers[hid]
  {
    hide Conflicts;
  }

  lemma SparesAbsent(w: World, w': World, k: Id)
    requires k in w.handlers ==> Spares(w, w', k)
    ensures Spares(w, w', k)
  {
  }

  // ---------------------------------------------------------------- two answers

  ghost predicate TwoOutputs(outputs: seq<(Id, Output)>, sid: Id) {
    exists m, n {:trigger outputs[m], outputs[n]} :: 0 <= m < n < |outputs| && outputs[m].0 == sid && outputs[n].0 == sid
  }

  /** Some continuation of the run answers twice for the session. */
  ghost predicate SecondOutcomeAhead(cfg: Config, run: seq<World>, acts: seq<Action>, sid: Id) {
    exists run': seq<World>, acts': seq<Action> {:trigger IsRun(cfg, run', acts')} ::
      IsRun(cfg, run', acts') && run <= run' && acts <= acts' && |run'| == |acts'| + 1 && TwoOutputs(run'[|acts'|].hist.outputs, sid)
  }

  lemma Answered(outputs: seq<(Id, Output)>, outputs': seq<(Id, Output)>, sid: Id)
    requires exists o :: outputs' == outputs + [(sid, o)]
    ensures !NoOutput(outputs', sid) && (!NoOutput(outputs, sid) ==> TwoOutputs(outputs', sid))
  {
    assert outputs'[|outputs|].0 == sid;
    if !NoOutput(outputs, sid) {
      var n :| 0 <= n < |outputs| && outputs[n].0 == sid;
      assert outputs'[n].0 == sid;
    }
  }

  lemma OneMoreAnswers(cfg: Config, run: seq<World>, acts: seq<Action>, k: Id, sid: Id)
    requires IsRun(cfg, run, acts) && |run| == |acts| + 1
    requires !NoOutput(run[|acts|].hist.outputs, sid) && CanAnswerFor(cfg, run[|acts|], k, sid)
    ensures SecondOutcomeAhead(cfg, run, acts, sid)
  {
    hide IsRun, NoOutput, TwoOutputs, CanAnswerFor;
    var run', acts' := Drive(cfg, run, acts, k, sid, k + 1);
    Answered(run[|acts|].hist.outputs, run'[|acts'|].hist.outputs, sid);
  }

  /** A handler past its SELECTs keeps being able to answer while its challenge is left alone. */
  lemma StillCan(cfg: Config, w: World, w': World, k: Id, sid: Id)
    requires CanAnswerFor(cfg, w, k, sid) && Spares(w, w', k)
    requires !w.handlers[k].FindIdentity? && !w.handlers[k].LinkSelect?
    ensures CanAnswerFor(cfg, w', k, sid)
  {
  }

  lemma StillCanSelect(cfg: Config, w: World, w': World, k: Id, sid: Id)
    requires CanAnswerFor(cfg, w, k, sid) && Spares(w, w', k) && w'.rows == w.rows
    ensures CanAnswerFor(cfg, w', k, sid)
  {
  }

  /** One of two gets past its SELECT, so that what the other writes cannot stop it. */
  lemma Prepare(cfg: Config, run: seq<World>, acts: seq<Action>, a: Id, b: Id, sid: Id)
    returns (run': seq<World>, acts': seq<Action>)
    requires IsRun(cfg, run, acts) && |run| == |acts| + 1 && a != b
    requires CanAnswerFor(cfg, run[|acts|], a, sid) && CanAnswerFor(cfg, run[|acts|], b, sid)
    ensures IsRun(cfg, run', acts') && |run'| == |acts'| + 1 && run <= run' && acts <= acts'
    ensures CanAnswerFor(cfg, run'[|acts'|], a, sid) && CanAnswerFor(cfg, run'[|acts'|], b, sid)
    ensures !run'[|acts'|].handlers[b].FindIdentity? && !run'[|acts'|].handlers[b].LinkSelect?
  {
    hide IsRun, Stepped, CanAnswer, Spares;
    var w := run[|acts|];
    run', acts' := run, acts;
    CanAnswerIsLive(cfg, w, b, sid);
    if w.handlers[b].FindIdentity? || w.handlers[b].LinkSelect? {
      if w.handlers[b].FindIdentity? {
        AdvanceFind(cfg, w, b, sid, a);
      } else {
        AdvanceSelect(cfg, w, b, sid, a);
      }
      run', acts' := Step(cfg, run, acts, b);
      StillCanSelect(cfg, w, run'[|acts'|], a, sid);
    }
  }

  lemma PairAnswers(cfg: Config, run: seq<World>, acts: seq<Action>, a: Id, b: Id, sid: Id)
    requires IsRun(cfg, run, acts) && |run| == |acts| + 1 && a != b
    requires CanAnswerFor(cfg, run[|acts|], a, sid) && CanAnswerFor(cfg, run[|acts|], b, sid)
    ensures SecondOutcomeAhead(cfg, run, acts, sid)
  {
    hide IsRun, CanAnswerFor, NoOutput, Spares, TwoOutputs;
    var run1, acts1 := Prepare(cfg, run, acts, a, b, sid);
    var run2, acts2 := Drive(cfg, run1, acts1, a, sid, b);
    Answered(run1[|acts1|].hist.outputs, run2[|acts2|].hist.outputs, sid);
    StillCan(cfg, run1[|acts1|], run2[|acts2|], b, sid);
    OneMoreAnswers(cfg, run2, acts2, b, sid);
    AheadOfLater(cfg, run, acts, run2, acts2, sid);
  }

  lemma AheadOfLater(cfg: Config, run: seq<World>, acts: seq<Action>, run1: seq<World>, acts1: seq<Action>, sid: Id)
    requires run <= run1 && acts <= acts1 && SecondOutcomeAhead(cfg, run1, acts1, sid)
    ensures SecondOutcomeAhead(cfg, run, acts, sid)
  {
    hide IsRun, TwoOutputs;
  }

  // ---------------------------------------------------------------- a live session, and a start in flight

  /** A cancelled callback reads a live session, which stays live. */
  lemma Overtake(cfg: Config, run: seq<World>, acts: seq<Action>, sid: Id, k: Id)
    returns (run': seq<World>, acts': seq<Action>, hid: Id)
    requires IsRun(cfg, run, acts) && |run| == |acts| + 1 && Live(run[|acts|].db, SessionKey(sid), run[|acts|].now)
    ensures IsRun(cfg, run', acts') && |run'| == |acts'| + 1 && run <= run' && acts <= acts'
    ensures CanAnswerFor(cfg, run'[|acts'|], hid, sid) && !run'[|acts'|].handlers[hid].FindIdentity? && !run'[|acts'|].handlers[hid].LinkSelect?
    ensures hid !in run[|acts|].handlers && Spares(run[|acts|], run'[|acts'|], k)
    ensures Live(run'[|acts'|].db, SessionKey(sid), run'[|acts'|].now)
  {
    hide IsRun, Stepped, Inv, Core;
    var w := run[|acts|];
    RunInv(cfg, run, acts, |acts|);
    InvCore(cfg, w);
    SessionEntryIs(cfg, w, sid);
    var s := w.db[SessionKey(sid)].value.session;
    hid := Bound(w.handlers.Keys);
    run', acts' := Take(cfg, run, acts, Accept(hid, Cancelled(sid, s)));
    var w1 := run'[|acts'|];
    CancelReads(cfg, w1, hid, sid, s);
    run', acts' := Step(cfg, run', acts', hid);
  }

  function Cancelled(sid: Id, s: OAuthSession): Handler {
    CallbackGet(Google, sid, CallbackRequest(false, Some(s.state), true))
  }

  lemma SessionEntryIs(cfg: Config, w: World, sid: Id)
    requires Core(cfg, w) && SessionKey(sid) in w.db
    ensures w.db[SessionKey(sid)].value.SessionValue?
  {
    hide HandlersOK;
    assert EntryOK(w.hist, SessionKey(sid), w.db[SessionKey(sid)].value);
  }

  lemma CancelReads(cfg: Config, w: World, hid: Id, sid: Id, s: OAuthSession)
    requires hid in w.handlers && w.handlers[hid] == Cancelled(sid, s)
    requires Live(w.db, SessionKey(sid), w.now) && w.db[SessionKey(sid)].value == SessionValue(s)
    ensures var w' := Stepped(cfg, w, hid);
            && w'.now == w.now && w'.db == w.db && w'.handlers == w.handlers[hid := CloseAndEnd(sid, true)]
  {
    hide S.Moved;
    var r := Given(Bound(w.hist.drawn));
    var v := Drawn(Ticked(w), S.Pick(r, w.handlers[hid]));
    assert ReadSession(v, sid) == Some(s);
    S.EffectCallbackGet(cfg, v, hid, r, Google, sid, CallbackRequest(false, Some(s.state), true));
  }

  lemma LiveIsAtRisk(cfg: Config, run: seq<World>, acts: seq<Action>, sid: Id)
    requires IsRun(cfg, run, acts) && |run| == |acts| + 1 && Live(run[|acts|].db, SessionKey(sid), run[|acts|].now)
    ensures SecondOutcomeAhead(cfg, run, acts, sid)
  {
    hide IsRun, CanAnswerFor, Spares, Live, TwoOutputs;
    var run1, acts1, a := Overtake(cfg, run, acts, sid, 0);
    assert a in run1[|acts1|].handlers by { CanAnswerIsLive(cfg, run1[|acts1|], a, sid); IsThere(cfg, run1[|acts1|], a, sid); }
    var run2, acts2, b := Overtake(cfg, run1, acts1, sid, a);
    StillCan(cfg, run1[|acts1|], run2[|acts2|], a, sid);
    PairAnswers(cfg, run2, acts2, a, b, sid);
    AheadOfLater(cfg, run, acts, run2, acts2, sid);
  }

  lemma IsThere(cfg: Config, w: World, k: Id, sid: Id)
    requires CanAnswerFor(cfg, w, k, sid)
    ensures k in w.handlers
  {
  }

  /** A start in flight writes the session back. */
  lemma {:induction false} FinishStart(cfg: Config, run: seq<World>, acts: seq<Action>, k: Id, sid: Id)
    returns (run': seq<World>, acts': seq<Action>)
    requires IsRun(cfg, run, acts) && |run| == |acts| + 1
    requires k in run[|acts|].handlers && Worked(run[|acts|].handlers[k]) == Some(sid) && Starts(run[|acts|].handlers[k])
    ensures IsRun(cfg, run', acts') && |run'| == |acts'| + 1 && run <= run' && acts <= acts'
    ensures Live(run'[|acts'|].db, SessionKey(sid), run'[|acts'|].now)
    decreases 14 - Stage(run[|acts|].handlers[k])
  {
    hide IsRun, Stepped, Live, Stage;
    StartMoves(cfg, run[|acts|], k, sid);
    StageIsLast(run[|acts|].handlers[k]);
    run', acts' := Step(cfg, run, acts, k);
    if !Live(run'[|acts'|].db, SessionKey(sid), run'[|acts'|].now) {
      StageIsLast(run'[|acts'|].handlers[k]);
      run', acts' := FinishStart(cfg, run', acts', k, sid);
    }
  }

  lemma StartMoves(cfg: Config, w: World, k: Id, sid: Id)
    requires k in w.handlers && Worked(w.handlers[k]) == Some(sid) && Starts(w.handlers[k])
    ensures var w' := Stepped(cfg, w, k);
            || Live(w'.db, SessionKey(sid), w'.now)
            || (k in w'.handlers && Worked(w'.handlers[k]) == Some(sid) && Starts(w'.handlers[k]) && Stage(w'.handlers[k]) > Stage(w.handlers[k]))
  {
    hide S.Moved, TtlReply;
    var r := Given(Bound(w.hist.drawn));
    var v := Drawn(Ticked(w), S.Pick(r, w.handlers[k]));
    match w.handlers[k]
    case StartResolve(_, s) => S.EffectStartResolve(cfg, v, k, r, sid, s);
    case StartTtl(_, s) => S.EffectStartTtl(cfg, v, k, r, sid, s);
    case StartSave(_, s, ttl) => S.EffectStartSave(cfg, v, k, r, sid, s, ttl);
  }

  /** From every state at risk a second outcome can follow. */
  lemma RiskIsReal(cfg: Config, run: seq<World>, acts: seq<Action>, sid: Id)
    requires IsRun(cfg, run, acts) && |run| == |acts| + 1 && AtRisk(cfg, run[|acts|], sid)
    ensures SecondOutcomeAhead(cfg, run, acts, sid)
  {
    hide IsRun, CanAnswerFor, NoOutput, Live, TwoOutputs, Starts, Worked;
    var w := run[|acts|];
    if Live(w.db, SessionKey(sid), w.now) {
      LiveIsAtRisk(cfg, run, acts, sid);
    } else if k :| k in w.handlers && Worked(w.handlers[k]) == Some(sid) && Starts(w.handlers[k]) {
      var run1, acts1 := FinishStart(cfg, run, acts, k, sid);
      LiveIsAtRisk(cfg, run1, acts1, sid);
      AheadOfLater(cfg, run, acts, run1, acts1, sid);
    } else if a, b :| a != b && CanAnswerFor(cfg, w, a, sid) && CanAnswerFor(cfg, w, b, sid) {
      PairAnswers(cfg, run, acts, a, b, sid);
    } else if !NoOutput(w.hist.outputs, sid) && exists k :: CanAnswerFor(cfg, w, k, sid) {
      var k :| CanAnswerFor(cfg, w, k, sid);
      OneMoreAnswers(cfg, run, acts, k, sid);
    } else {
      TwiceIsTwo(w.hist.outputs, sid);
    }
  }

  lemma TwiceIsTwo(outputs: seq<(Id, Output)>, sid: Id)
    ensures TwoOutputs(outputs, sid) <==> !AtMostOneOutput(outputs, sid)
  {
  }
}
