/** The exact condition under which a session can get a second outcome: a state at no risk stays at none. */
module ProtocolRisk {
  import opened Wrappers
  import opened Records
  import opened RedisKeyspace
  import opened IdentityTable
  import opened Registry
  import opened TenantKey
  import opened Protocol
  import opened ProtocolInvariant
  import opened ProtocolSteps
  import opened ProtocolPast
  import opened ProtocolRuns
  import opened ProtocolTraces
  import opened ProtocolTheorems
  import opened ProtocolGuards
  import opened ProtocolExhaustion
  import S = ServiceSteps
  import opened ProtocolContinuations

  // ---------------------------------------------------------------- a state at no risk stays so

  ghost predicate Calm(cfg: Config, w: World, sid: Id) {
    && !Live(w.db, SessionKey(sid), w.now)
    && (forall k {:trigger w.handlers[k]} :: k in w.handlers && Worked(w.handlers[k]) == Some(sid) ==> !Starts(w.handlers[k]))
    && (forall a, b {:trigger CanAnswerFor(cfg, w, a, sid), CanAnswerFor(cfg, w, b, sid)} ::
          CanAnswerFor(cfg, w, a, sid) && CanAnswerFor(cfg, w, b, sid) ==> a == b)
    && (NoOutput(w.hist.outputs, sid) || forall k :: !CanAnswerFor(cfg, w, k, sid))
    && AtMostOneOutput(w.hist.outputs, sid)
  }

  lemma CalmIs(cfg: Config, w: World, sid: Id)
    ensures Calm(cfg, w, sid) <==> !AtRisk(cfg, w, sid)
  {
    hide CanAnswerFor, NoOutput, AtMostOneOutput, Live, Starts, Worked;
  }

  /** What other handlers and the passing of time can do to handler `k`: rows stay, and its challenge
      does not come back. */
  ghost predicate NoBetter(w: World, w': World, k: Id) {
    && k in w.handlers && k in w'.handlers && w'.handlers[k] == w.handlers[k]
    && Keeps(w.rows, w'.rows)
    && (AwaitsConfirmation(w.handlers[k]) && Live(w'.db, ChallengeKey(w.handlers[k].challenge), w'.now)
        ==> Live(w.db, ChallengeKey(w.handlers[k].challenge), w.now))
  }

  lemma FoundLater(t: Table, t': Table, a: LinkArgs)
    requires Keeps(t, t') && Unique(t') && FindByKey(t, a.provider, a.subject).Some?
    ensures var id := FindByKey(t, a.provider, a.subject).value;
            FindByKey(t', a.provider, a.subject) == Some(id) && t'[id].user == t[id].user
  {
    FindByKeyIs(t', a.provider, a.subject, FindByKey(t, a.provider, a.subject).value);
  }

  lemma NeverBetter(cfg: Config, w: World, w': World, k: Id, sid: Id)
    requires NoBetter(w, w', k) && Unique(w'.rows) && CanAnswerFor(cfg, w', k, sid)
    ensures CanAnswerFor(cfg, w, k, sid)
  {
    hide Unique, Keeps, FindByKey, ProviderOf, SubjectOf, Live;
    match w.handlers[k]
    case FindIdentity(v) =>
      var a := LinkArgs(ProviderOf(v.route), SubjectOf(v.route, v.who.sub), "", None, false);
      if FindByKey(w.rows, a.provider, a.subject).Some? {
        FoundLater(w.rows, w'.rows, a);
      }
    case LinkSelect(_, a) =>
      if FindByKey(w.rows, a.provider, a.subject).Some? {
        FoundLater(w.rows, w'.rows, a);
      }
    case _ =>
  }

  /** Another handler's step is no help. */
  lemma OthersNoHelp(cfg: Config, w: World, w': World, hid: Id, c: Choice, k: Id)
    requires Core(cfg, w) && hid in w.handlers && k in w.handlers && k != hid && Notes(w, w', hid, c)
    requires AwaitsConfirmation(w.handlers[k]) ==> c.draw != w.handlers[k].challenge
    ensures NoBetter(w, w', k)
  {
    hide Core, Sources, Adds;
    if AwaitsConfirmation(w.handlers[k]) {
      ChallengeOfIsOwn(cfg, w, k);
      if w.handlers[hid].MarkSave? {
        ChallengeOfIsOwn(cfg, w, hid);
      }
    }
  }

  // ---------------------------------------------------------------- a callback that cannot answer never will

  function GivenChoice(c: Choice): S.Randoms {
    S.Randoms(c.draw, c.state, c.nonce, c.draw, c.draw, c.draw, c.draw, c.ok, c.ok, c.who)
  }

  /** The step did not answer, and the handler still cannot. */
  ghost predicate Stuck(cfg: Config, w: World, w': World, hid: Id, sid: Id) {
    w'.hist.outputs == w.hist.outputs && !CanAnswerFor(cfg, w', hid, sid)
  }

  lemma StuckLink(cfg: Config, w: World, hid: Id, c: Choice, sid: Id)
    requires hid in w.handlers && Worked(w.handlers[hid]) == Some(sid) && Answers(w.handlers[hid]) && !CanAnswer(cfg, w, w.handlers[hid])
    requires var h := w.handlers[hid]; h.LinkSelect? || h.LinkUpdate?
    requires w.handlers[hid].LinkUpdate? ==> w.handlers[hid].row in w.rows
    ensures Stuck(cfg, w, StepHandler(cfg, w, hid, c), hid, sid)
  {
    hide StepHandler, FindByKey, Refreshed;
    var h, r := w.handlers[hid], GivenChoice(c);
    assert S.Moved(cfg, w, hid, r) == StepHandler(cfg, w, hid, c);
    hide S.Moved;
    if h.LinkSelect? {
      S.EffectLinkSelect(cfg, w, hid, r, h.source, h.args);
    } else {
      S.EffectLinkUpdate(cfg, w, hid, r, h.source, h.args, h.row);
    }
  }

  lemma StuckClose(cfg: Config, w: World, hid: Id, c: Choice, sid: Id)
    requires hid in w.handlers && Worked(w.handlers[hid]) == Some(sid) && Answers(w.handlers[hid]) && !CanAnswer(cfg, w, w.handlers[hid])
    requires w.handlers[hid].LinkClose? && w.handlers[hid].visit.session.linkKisUserId.Some?
    ensures Stuck(cfg, w, StepHandler(cfg, w, hid, c), hid, sid)
  {
    hide StepHandler, RecordFor;
    var h, r := w.handlers[hid], GivenChoice(c);
    assert S.Moved(cfg, w, hid, r) == StepHandler(cfg, w, hid, c);
    hide S.Moved;
    S.EffectLinkClose(cfg, w, hid, r, h.visit, h.result);
  }

  lemma StuckFind(cfg: Config, w: World, hid: Id, c: Choice, sid: Id)
    requires hid in w.handlers && Worked(w.handlers[hid]) == Some(sid) && Answers(w.handlers[hid]) && !CanAnswer(cfg, w, w.handlers[hid])
    requires w.handlers[hid].FindIdentity? || w.handlers[hid].Touch?
    ensures Stuck(cfg, w, StepHandler(cfg, w, hid, c), hid, sid)
  {
    hide StepHandler, FindByKey, ProviderOf, SubjectOf, RecordFor;
    var h, r := w.handlers[hid], GivenChoice(c);
    assert S.Moved(cfg, w, hid, r) == StepHandler(cfg, w, hid, c);
    hide S.Moved;
    if h.FindIdentity? {
      S.EffectFindIdentity(cfg, w, hid, r, h.visit);
    } else {
      S.EffectTouch(cfg, w, hid, r, h.visit, h.row, h.user);
    }
  }

  lemma StuckCreate(cfg: Config, w: World, hid: Id, c: Choice, sid: Id)
    requires hid in w.handlers && Worked(w.handlers[hid]) == Some(sid) && Answers(w.handlers[hid]) && !CanAnswer(cfg, w, w.handlers[hid])
    requires w.handlers[hid].CreateChallenge? || w.handlers[hid].ReturnClose?
    ensures Stuck(cfg, w, StepHandler(cfg, w, hid, c), hid, sid)
  {
    hide StepHandler;
    var h, r := w.handlers[hid], GivenChoice(c);
    assert S.Moved(cfg, w, hid, r) == StepHandler(cfg, w, hid, c);
    hide S.Moved;
    if h.CreateChallenge? {
      S.EffectCreateChallenge(cfg, w, hid, r, h.visit, h.record);
    } else {
      S.EffectReturnClose(cfg, w, hid, r, h.visit, h.challenge);
    }
  }

  lemma StuckConfirm(cfg: Config, w: World, hid: Id, c: Choice, sid: Id)
    requires Core(cfg, w) && UsedPast(w.handlers, w.db, w.hist.challenges)
    requires hid in w.handlers && w.handlers[hid].ConfirmGet? && Worked(w.handlers[hid]) == Some(sid) && !CanAnswer(cfg, w, w.handlers[hid])
    ensures Stuck(cfg, w, StepHandler(cfg, w, hid, c), hid, sid)
  {
    hide Core, UsedPast, StepHandler, Confirmable;
    var h, r := w.handlers[hid], GivenChoice(c);
    assert S.Moved(cfg, w, hid, r) == StepHandler(cfg, w, hid, c);
    hide S.Moved;
    if Live(w.db, ChallengeKey(h.challenge), w.now) {
      ChallengeOfIsOwn(cfg, w, hid);
      ChallengeReadable(cfg, w, hid, h.challenge);
    }
    S.EffectConfirmGet(cfg, w, hid, r, h.visit, h.challenge);
  }

  lemma OwnStuck(cfg: Config, w: World, hid: Id, c: Choice, sid: Id)
    requires Core(cfg, w) && UsedPast(w.handlers, w.db, w.hist.challenges)
    requires hid in w.handlers && Worked(w.handlers[hid]) == Some(sid) && Answers(w.handlers[hid]) && !CanAnswer(cfg, w, w.handlers[hid])
    ensures Stuck(cfg, w, StepHandler(cfg, w, hid, c), hid, sid)
  {
    hide Core, UsedPast, StepHandler, Stuck;
    var h := w.handlers[hid];
    if h.LinkSelect? || h.LinkUpdate? || h.LinkClose? {
      if !h.LinkSelect? {
        UpdaterKnows(cfg, w, hid);
      }
      if h.LinkClose? {
        StuckClose(cfg, w, hid, c, sid);
      } else {
        StuckLink(cfg, w, hid, c, sid);
      }
    } else if h.FindIdentity? || h.Touch? {
      StuckFind(cfg, w, hid, c, sid);
    } else if h.CreateChallenge? || h.ReturnClose? {
      StuckCreate(cfg, w, hid, c, sid);
    } else {
      StuckConfirm(cfg, w, hid, c, sid);
    }
  }

  /** What a step does to the callbacks that can answer: it makes none, and only such a one answers. */
  ghost predicate MakesNone(cfg: Config, w: World, w': World, hid: Id, sid: Id) {
    && (forall k :: CanAnswerFor(cfg, w', k, sid) ==> CanAnswerFor(cfg, w, k, sid))
    && (|w'.hist.outputs| > |w.hist.outputs| && w'.hist.outputs[|w.hist.outputs|].0 == sid ==> CanAnswerFor(cfg, w, hid, sid))
  }

  lemma ResumeMakesNone(cfg: Config, w: World, hid: Id, c: Choice, sid: Id)
    requires Core(cfg, w) && UsedPast(w.handlers, w.db, w.hist.challenges) && hid in w.handlers
    requires var w' := StepHandler(cfg, w, hid, c); StepAdds(w, w', hid, c) && Unique(w'.rows)
    requires forall k {:trigger w.handlers[k]} :: k in w.handlers && AwaitsConfirmation(w.handlers[k]) ==> c.draw != w.handlers[k].challenge
    requires !Live(w.db, SessionKey(sid), w.now)
    ensures MakesNone(cfg, w, StepHandler(cfg, w, hid, c), hid, sid)
  {
    hide Core, UsedPast, StepHandler, Unique, Live, CanAnswer, Notes, Adds, Closes, AfterClose, Answers, Worked, NoBetter;
    var w' := StepHandler(cfg, w, hid, c);
    OthersStay(w, w', hid, c);
    forall k | CanAnswerFor(cfg, w', k, sid) ensures CanAnswerFor(cfg, w, k, sid) {
      CanAnswerIsLive(cfg, w', k, sid);
      if k != hid {
        OthersNoHelp(cfg, w, w', hid, c, k);
        NeverBetter(cfg, w, w', k, sid);
      } else if !CanAnswerFor(cfg, w, hid, sid) {
        assert Worked(w.handlers[hid]) == Some(sid) && Answers(w.handlers[hid]);
        OwnStuck(cfg, w, hid, c, sid);
      }
    }
    if |w'.hist.outputs| > |w.hist.outputs| && w'.hist.outputs[|w.hist.outputs|].0 == sid && !CanAnswerFor(cfg, w, hid, sid) {
      OwnStuck(cfg, w, hid, c, sid);
    }
  }

  lemma CalmResume(cfg: Config, w: World, w': World, hid: Id, draw: Id, sid: Id)
    requires Calm(cfg, w, sid) && MakesNone(cfg, w, w', hid, sid) && hid in w.handlers && hid in w'.handlers && w'.now == w.now && draw != sid
    requires forall k {:trigger w'.handlers[k]} :: k in w'.handlers && k != hid ==> k in w.handlers && w'.handlers[k] == w.handlers[k]
    requires Treats(w, w', w.handlers[hid], w'.handlers[hid], draw)
    ensures Calm(cfg, w', sid)
  {
    hide CanAnswer, NoOutput, AtMostOneOutput, Worked, Closes, AfterClose, Answers, Starts;
    var h, h' := w.handlers[hid], w'.handlers[hid];
    HandlerFacts(h);
    HandlerFacts(h');
    StartSaveStarts(h);
    OutputsKept(w.hist.outputs, w'.hist.outputs, sid);
    forall k | |w'.hist.outputs| > |w.hist.outputs| && w'.hist.outputs[|w.hist.outputs|].0 == sid ensures !CanAnswerFor(cfg, w', k, sid) {
      if CanAnswerFor(cfg, w', k, sid) {
        CanAnswerIsLive(cfg, w', k, sid);
      }
    }
  }

  lemma StartSaveStarts(h: Handler)
    ensures h.StartSave? ==> Starts(h)
  {
  }

  lemma CalmTicked(cfg: Config, w: World, c: Choice, sid: Id)
    requires Calm(cfg, w, sid)
    ensures Calm(cfg, Drawn(Ticked(w), c), sid)
  {
    hide CanAnswer, NoOutput, AtMostOneOutput, Live, Starts, Worked;
    var v := Drawn(Ticked(w), c);
    forall k ensures CanAnswerFor(cfg, v, k, sid) <==> CanAnswerFor(cfg, w, k, sid) {
      SameCan(cfg, w, c, k, sid);
    }
  }

  lemma SameCan(cfg: Config, w: World, c: Choice, k: Id, sid: Id)
    ensures CanAnswerFor(cfg, Drawn(Ticked(w), c), k, sid) <==> CanAnswerFor(cfg, w, k, sid)
  {
    hide Live, FindByKey;
  }

  /** Nothing but a resumed handler writes, reads or answers. */
  lemma CalmQuiet(cfg: Config, w: World, w': World, sid: Id)
    requires Calm(cfg, w, sid) && w'.db == w.db && w'.now >= w.now && w'.hist.outputs == w.hist.outputs
    requires Keeps(w.rows, w'.rows) && Unique(w'.rows)
    requires forall k {:trigger w'.handlers[k]} :: k in w'.handlers ==>
               (k in w.handlers && w'.handlers[k] == w.handlers[k]) || Worked(w'.handlers[k]).None?
    ensures Calm(cfg, w', sid)
  {
    hide CanAnswer, NoOutput, AtMostOneOutput, Starts, Worked, Unique, Keeps;
    forall k | CanAnswerFor(cfg, w', k, sid) ensures CanAnswerFor(cfg, w, k, sid) {
      NeverBetter(cfg, w, w', k, sid);
    }
  }

  lemma RowsAreUnique(cfg: Config, w: World)
    requires Inv(cfg, w)
    ensures Unique(w.rows) && Keeps(w.rows, w.rows)
  {
    hide Core, Unique;
    InvCore(cfg, w);
    TableIs(cfg, w);
  }

  lemma KeepsStatus(t: Table, id: Id, st: Status)
    requires id in t
    ensures Keeps(t, t[id := t[id].(status := st)])
  {
  }

  lemma CalmResumes(cfg: Config, w: World, hid: Id, c: Choice, sid: Id)
    requires Inv(cfg, w) && Enabled(w, Resume(hid, c)) && Inv(cfg, Next(cfg, w, Resume(hid, c)))
    requires Follows(w, Next(cfg, w, Resume(hid, c)), Resume(hid, c))
    requires Calm(cfg, w, sid) && sid in w.hist.sessions
    ensures Calm(cfg, Next(cfg, w, Resume(hid, c)), sid)
  {
    hide Inv, Core, Begun, UsedPast, StepHandler, Calm, Unique, Notes, Treats, MakesNone, CanAnswer, Enabled;
    var v, w' := Drawn(Ticked(w), c), Next(cfg, w, Resume(hid, c));
    ResumeIs(cfg, w, hid, c);
    InvParts(cfg, w);
    Begin(cfg, w, hid, c);
    BegunIs(cfg, w, v, hid, c);
    ChallengesDrawn(cfg, w);
    CalmTicked(cfg, w, c, sid);
    RowsAreUnique(cfg, w');
    forall k {:trigger v.handlers[k]} | k in v.handlers && AwaitsConfirmation(v.handlers[k]) ensures c.draw != v.handlers[k].challenge {
      ChallengeOfIsOwn(cfg, w, k);
    }
    CalmDead(cfg, v, sid);
    ResumeMakesNone(cfg, v, hid, c, sid);
    OthersStay(v, w', hid, c);
    NowStays(v, w', hid, c);
    CalmResume(cfg, v, w', hid, c.draw, sid);
  }

  lemma NowStays(w: World, w': World, hid: Id, c: Choice)
    requires hid in w.handlers && Notes(w, w', hid, c)
    ensures w'.now == w.now
  {
    hide Writes, RowsKept, Sources, Adds;
  }

  lemma CalmDead(cfg: Config, w: World, sid: Id)
    requires Calm(cfg, w, sid)
    ensures !Live(w.db, SessionKey(sid), w.now)
  {
  }

  lemma BegunIs(cfg: Config, v: World, w: World, hid: Id, c: Choice)
    requires Begun(cfg, v, w, hid, c)
    ensures Core(cfg, w) && hid in w.handlers && w.db == v.db && w.handlers == v.handlers && w.hist.challenges == v.hist.challenges
  {
    hide Core, HandlerOK;
  }

  lemma CalmFollows(cfg: Config, w: World, a: Action, sid: Id)
    requires Inv(cfg, w) && Enabled(w, a) && Inv(cfg, Next(cfg, w, a)) && Follows(w, Next(cfg, w, a), a)
    requires Calm(cfg, w, sid) && sid in w.hist.sessions
    ensures Calm(cfg, Next(cfg, w, a), sid)
  {
    hide Inv, Calm, Unique, Keeps, StepHandler, StepAdds, Follows, IsEntry, Worked;
    RowsAreUnique(cfg, w);
    RowsAreUnique(cfg, Next(cfg, w, a));
    match a
    case Resume(hid, c) => CalmResumes(cfg, w, hid, c, sid);
    case ChangeStatus(id, st) =>
      KeepsStatus(w.rows, id, st);
      CalmQuiet(cfg, w, Next(cfg, w, a), sid);
    case Accept(hid, h) =>
      HandlerFacts(h);
      CalmQuiet(cfg, w, Next(cfg, w, a), sid);
    case Fail(hid) =>
      HandlerFacts(Finished);
      CalmQuiet(cfg, w, Next(cfg, w, a), sid);
    case _ =>
      CalmQuiet(cfg, w, Next(cfg, w, a), sid);
  }

  lemma SessionsStay(w: World, w': World, a: Action)
    requires Follows(w, w', a)
    ensures forall k :: k in w.hist.sessions ==> k in w'.hist.sessions
  {
    hide Treats, Writes, RowsKept, Sources, IsEntry, Names;
  }

  lemma {:induction false} CalmForGood(cfg: Config, run: seq<World>, acts: seq<Action>, i: nat, j: nat, sid: Id)
    requires IsRun(cfg, run, acts) && i <= j < |run| && sid in run[i].hist.sessions && Calm(cfg, run[i], sid)
    ensures sid in run[j].hist.sessions && Calm(cfg, run[j], sid)
    decreases j
  {
    hide IsRun, Inv, Next, Enabled, Follows, Calm;
    StartOfRun(cfg, run, acts);
    if i < j {
      CalmForGood(cfg, run, acts, i, j - 1, sid);
      StepOfRun(cfg, run, acts, j - 1);
      CalmFollows(cfg, run[j - 1], acts[j - 1], sid);
      SessionsStay(run[j - 1], run[j], acts[j - 1]);
    }
  }

  /** Exactly when a session can still get a second outcome: from a state at risk some continuation
      answers for it twice, and from any other none does. */
  lemma SecondOutcomeExactly(cfg: Config, run: seq<World>, acts: seq<Action>, sid: Id)
    requires IsRun(cfg, run, acts) && |run| == |acts| + 1 && sid in run[|acts|].hist.sessions
    ensures SecondOutcomeAhead(cfg, run, acts, sid) <==> AtRisk(cfg, run[|acts|], sid)
  {
    hide IsRun, AtRisk, Calm, TwoOutputs, AtMostOneOutput;
    if AtRisk(cfg, run[|acts|], sid) {
      RiskIsReal(cfg, run, acts, sid);
    } else if SecondOutcomeAhead(cfg, run, acts, sid) {
      var run': seq<World>, acts': seq<Action> :|
        IsRun(cfg, run', acts') && run <= run' && acts <= acts' && |run'| == |acts'| + 1 && TwoOutputs(run'[|acts'|].hist.outputs, sid);
      CalmIs(cfg, run[|acts|], sid);
      assert run'[|acts|] == run[|acts|];
      CalmForGood(cfg, run', acts', |acts|, |acts'|, sid);
      CalmAnswers(cfg, run'[|acts'|], sid);
      TwiceIsTwo(run'[|acts'|].hist.outputs, sid);
    }
  }

  lemma CalmAnswers(cfg: Config, w: World, sid: Id)
    requires Calm(cfg, w, sid)
    ensures AtMostOneOutput(w.hist.outputs, sid)
  {
  }
}
