/** A session is used up by its first outcome, unless its handlers overlap in one of two ways. */
module ProtocolExhaustion {
  import opened Wrappers
  import opened Records
  import opened RedisKeyspace
  import opened IdentityTable
  import opened Registry
  import opened Protocol
  import opened ProtocolInvariant
  import opened ProtocolChanges
  import opened ProtocolPast
  import opened ProtocolRuns
  import opened ProtocolTraces
  import opened ProtocolTheorems

  ghost predicate NoOutput(outputs: seq<(Id, Output)>, sid: Id) {
    forall n :: 0 <= n < |outputs| ==> outputs[n].0 != sid
  }

  ghost predicate AtMostOneOutput(outputs: seq<(Id, Output)>, sid: Id) {
    forall m, n {:trigger outputs[m], outputs[n]} ::
      0 <= m < |outputs| && 0 <= n < |outputs| && outputs[m].0 == sid && outputs[n].0 == sid ==> m == n
  }

  /** A callback that has read session `sid` and may still answer for it. */
  predicate AnswersFor(h: Handler, sid: Id) {
    Worked(h) == Some(sid) && Answers(h)
  }

  // ---------------------------------------------------------------- the two ways to overlap

  /** A start writes back a session that was closed after it read it. */
  ghost predicate Revives(w: World, a: Action, sid: Id) {
    && a.Resume? && a.hid in w.handlers && w.handlers[a.hid].StartSave? && w.handlers[a.hid].sid == sid
    && sid in w.hist.closed
  }

  /** A callback gets past its read of the session while another one, past its own, has not deleted
      it yet. */
  ghost predicate Overtakes(w: World, w': World, a: Action, sid: Id) {
    && a.Resume? && a.hid in w.handlers && w.handlers[a.hid].CallbackGet?
    && a.hid in w'.handlers && AnswersFor(w'.handlers[a.hid], sid)
    && exists k {:trigger w.handlers[k]} ::
         k in w.handlers && k != a.hid && AnswersFor(w.handlers[k], sid) && !AfterClose(w.handlers[k])
  }

  /** Neither happened before step `i`. */
  ghost predicate NoOverlap(run: seq<World>, acts: seq<Action>, i: nat, sid: Id)
    requires |run| == |acts| + 1 && i <= |acts|
  {
    forall k: nat {:trigger acts[k]} :: k < i ==> !Revives(run[k], acts[k], sid) && !Overtakes(run[k], run[k + 1], acts[k], sid)
  }

  /** What a session is without overlap: in Redis and unanswered, or deleted and answered at most
      once; and at most one callback may still answer. */
  ghost predicate UsedUp(w: World, sid: Id) {
    && (sid in w.hist.closed ==> SessionKey(sid) !in w.db)
    && (sid !in w.hist.closed ==> NoOutput(w.hist.outputs, sid))
    && (forall k {:trigger w.handlers[k]} :: k in w.handlers && AnswersFor(w.handlers[k], sid) ==>
          (AfterClose(w.handlers[k]) ==> sid in w.hist.closed) && NoOutput(w.hist.outputs, sid))
    && (forall a, b {:trigger w.handlers[a], w.handlers[b]} ::
          a in w.handlers && b in w.handlers && AnswersFor(w.handlers[a], sid) && AnswersFor(w.handlers[b], sid) ==> a == b)
    && AtMostOneOutput(w.hist.outputs, sid)
  }

  // ---------------------------------------------------------------- every other step keeps it

  lemma OutputsKept(outputs: seq<(Id, Output)>, outputs': seq<(Id, Output)>, sid: Id)
    requires outputs <= outputs' && |outputs'| <= |outputs| + 1
    requires |outputs'| > |outputs| && outputs'[|outputs|].0 == sid ==> NoOutput(outputs, sid)
    ensures AtMostOneOutput(outputs, sid) ==> AtMostOneOutput(outputs', sid)
    ensures NoOutput(outputs, sid) && !(|outputs'| > |outputs| && outputs'[|outputs|].0 == sid) ==> NoOutput(outputs', sid)
  {
    assert forall n :: 0 <= n < |outputs| ==> outputs'[n] == outputs[n];
  }

  lemma HandlerFacts(h: Handler)
    ensures h.StartSave? ==> Worked(h) == Some(h.sid) && !Answers(h) && !Closes(h)
    ensures h.AuthorizeSave? ==> Worked(h).None? && !Closes(h)
    ensures h.Finished? ==> Worked(h).None? && !Answers(h)
    ensures Closes(h) ==> Worked(h).Some? && !AfterClose(h)
    ensures IsEntry(h) ==> Worked(h).None? && !Answers(h)
  {
  }

  lemma OthersStay(w: World, w': World, hid: Id, c: Choice)
    requires hid in w.handlers && Notes(w, w', hid, c)
    ensures hid in w'.handlers
    ensures forall k {:trigger w'.handlers[k]} :: k in w'.handlers && k != hid ==> k in w.handlers && w'.handlers[k] == w.handlers[k]
    ensures forall k {:trigger w.handlers[k]} :: k in w.handlers && k != hid ==> k in w'.handlers && w'.handlers[k] == w.handlers[k]
  {
    hide Writes, RowsKept, Sources, Adds;
  }

  lemma ResumeUses(w: World, w': World, hid: Id, draw: Id, sid: Id, c: Choice)
    requires UsedUp(w, sid) && hid in w.handlers && hid in w'.handlers
    requires !Revives(w, Resume(hid, c), sid) && !Overtakes(w, w', Resume(hid, c), sid)
    requires forall k {:trigger w'.handlers[k]} :: k in w'.handlers && k != hid ==> k in w.handlers && w'.handlers[k] == w.handlers[k]
    requires Treats(w, w', w.handlers[hid], w'.handlers[hid], draw)
    requires sid in w.hist.closed ==> draw != sid
    ensures UsedUp(w', sid)
  {
    hide Worked, Closes, AfterClose, NoOutput, AtMostOneOutput, Answers, Starts;
    var h, h' := w.handlers[hid], w'.handlers[hid];
    HandlerFacts(h);
    HandlerFacts(h');
    OutputsKept(w.hist.outputs, w'.hist.outputs, sid);
    assert AnswersFor(h', sid) && Worked(h).None? ==> sid !in w.hist.closed;
  }

  lemma ClosedIsDrawn(cfg: Config, w: World, sid: Id)
    requires Inv(cfg, w) && (sid in w.hist.closed || sid in w.hist.sessions)
    ensures sid in w.hist.drawn
  {
    hide HandlersOK, EntriesOK, Past, Singles, UsedPast;
  }

  lemma FollowUses(cfg: Config, w: World, w': World, a: Action, sid: Id)
    requires Inv(cfg, w) && Enabled(w, a) && Follows(w, w', a) && UsedUp(w, sid)
    requires !Revives(w, a, sid) && !Overtakes(w, w', a, sid)
    ensures UsedUp(w', sid)
  {
    hide Inv, Notes, Treats, IsEntry, Worked, AfterClose, Answers, NoOutput, AtMostOneOutput;
    match a
    case Resume(hid, c) =>
      var v := Drawn(Ticked(w), c);
      if sid in w.hist.closed {
        ClosedIsDrawn(cfg, w, sid);
      }
      OthersStay(v, w', hid, c);
      ResumeUses(v, w', hid, c.draw, sid, c);
    case Accept(hid, h) =>
      HandlerFacts(h);
    case Fail(hid) =>
      HandlerFacts(Finished);
    case _ =>
  }

  /** Unless a start brings it back or one callback overtakes another, a session is either waiting, or
      deleted with at most one code, ticket or error redirect given for it. */
  lemma {:induction false} SessionIsUsedUp(cfg: Config, run: seq<World>, acts: seq<Action>, i: nat, sid: Id)
    requires IsRun(cfg, run, acts) && |run| == |acts| + 1 && i < |run| && NoOverlap(run, acts, i, sid)
    ensures UsedUp(run[i], sid)
  {
    hide IsRun, Inv, Next, Enabled, Follows, Revives, Overtakes;
    StartOfRun(cfg, run, acts);
    if i > 0 {
      SessionIsUsedUp(cfg, run, acts, i - 1, sid);
      StepOfRun(cfg, run, acts, i - 1);
      assert !Revives(run[i - 1], acts[i - 1], sid);
      FollowUses(cfg, run[i - 1], run[i], acts[i - 1], sid);
    }
  }

  /** What every second outcome needs: two outcomes of one session in a run come after a start that
      wrote the closed session back, or after a callback that overtook another. */
  lemma SecondOutcomeNeedsOverlap(cfg: Config, run: seq<World>, acts: seq<Action>, i: nat, sid: Id, m: nat, n: nat)
    requires IsRun(cfg, run, acts) && |run| == |acts| + 1 && i < |run|
    requires m < n < |run[i].hist.outputs| && run[i].hist.outputs[m].0 == sid && run[i].hist.outputs[n].0 == sid
    ensures exists k: nat {:trigger acts[k]} ::
              k < i && (Revives(run[k], acts[k], sid) || Overtakes(run[k], run[k + 1], acts[k], sid))
  {
    hide IsRun, Revives, Overtakes;
    if NoOverlap(run, acts, i, sid) {
      SessionIsUsedUp(cfg, run, acts, i, sid);
    }
  }

  /** Until some start brings it back, a session that has been closed is gone: every start and callback
      that carries its cookie is refused and changes nothing. */
  lemma ClosedSessionIsRefused(cfg: Config, run: seq<World>, acts: seq<Action>, i: nat, hid: Id, sid: Id)
    requires IsRun(cfg, run, acts) && |run| == |acts| + 1 && Moves(run, acts, i, hid) && sid in run[i].hist.closed
    requires forall k: nat {:trigger acts[k]} :: k < i ==> !Revives(run[k], acts[k], sid)
    requires var h := run[i].handlers[hid]; (h.StartGet? || h.CallbackGet?) && h.sid == sid
    ensures run[i + 1].handlers[hid].Finished?
    ensures run[i + 1].db == run[i].db && run[i + 1].rows == run[i].rows && run[i + 1].hist.outputs == run[i].hist.outputs
  {
    hide IsRun, Core, Past, UsedPast, StepHandler, Revives;
    MoveIs(cfg, run, acts, i, hid);
    ClosedIsGone(cfg, run, acts, i, sid);
    GoneIsRefused(cfg, Drawn(Ticked(run[i]), acts[i].choice), hid, acts[i].choice, sid);
  }

  lemma FollowCloses(cfg: Config, w: World, w': World, a: Action, sid: Id)
    requires Inv(cfg, w) && Enabled(w, a) && Follows(w, w', a) && !Revives(w, a, sid)
    requires sid in w.hist.closed ==> SessionKey(sid) !in w.db
    ensures sid in w'.hist.closed ==> SessionKey(sid) !in w'.db
  {
    hide Inv, Notes, IsEntry, Worked, AfterClose, Answers, Moved, Closes;
    match a
    case Resume(hid, c) =>
      HandlerFacts(w.handlers[hid]);
      if sid in w.hist.closed {
        ClosedIsDrawn(cfg, w, sid);
      }
    case _ =>
  }

  lemma {:induction false} ClosedIsGone(cfg: Config, run: seq<World>, acts: seq<Action>, i: nat, sid: Id)
    requires IsRun(cfg, run, acts) && |run| == |acts| + 1 && i < |run|
    requires forall k: nat {:trigger acts[k]} :: k < i ==> !Revives(run[k], acts[k], sid)
    ensures sid in run[i].hist.closed ==> SessionKey(sid) !in run[i].db
  {
    hide IsRun, Inv, Next, Enabled, Follows, Revives;
    StartOfRun(cfg, run, acts);
    if i > 0 {
      ClosedIsGone(cfg, run, acts, i - 1, sid);
      StepOfRun(cfg, run, acts, i - 1);
      assert !Revives(run[i - 1], acts[i - 1], sid);
      FollowCloses(cfg, run[i - 1], run[i], acts[i - 1], sid);
    }
  }

  lemma GoneIsRefused(cfg: Config, w: World, hid: Id, c: Choice, sid: Id)
    requires hid in w.handlers && (w.handlers[hid].StartGet? || w.handlers[hid].CallbackGet?) && w.handlers[hid].sid == sid
    requires SessionKey(sid) !in w.db
    ensures StepHandler(cfg, w, hid, c) == End(w, hid)
  {
    hide StepWithVerifier;
    assert ReadSession(w, sid) == None;
    if w.handlers[hid].StartGet? {
    } else {
    }
  }
}
