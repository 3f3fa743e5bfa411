/** Who recorded what: each step records events in its own handler's name only, at the stage it
    has then reached, and at most one of each kind. */
module ProtocolPast {
  import opened Wrappers
  import opened Records
  import opened RedisKeyspace
  import opened IdentityTable
  import opened Registry
  import opened TenantKey
  import opened Protocol
  import opened ProtocolInvariant

  /** `b` has the keys of `a`, with the same values, and maybe `key` if that is allowed. */
  ghost predicate Only<V(!new)>(a: map<Id, V>, b: map<Id, V>, key: Id, allowed: bool) {
    && (forall k {:trigger k in b} {:trigger b[k]} :: k in b ==> (k in a && b[k] == a[k]) || (allowed && k == key))
    && (forall k {:trigger k in a} :: k in a ==> k in b)
  }

  /** `b` has the keys of `a`; its new values all name `hid`. */
  ghost predicate Names(a: map<Id, Id>, b: map<Id, Id>, hid: Id) {
    && (forall k {:trigger k in b} {:trigger b[k]} :: k in b ==> (k in a && b[k] == a[k]) || b[k] == hid)
    && (forall k {:trigger k in a} :: k in a ==> k in b)
  }

  /** What handler `hid`, moving from stage `from` to stage `to` with random id `draw`, may add. */
  ghost predicate Adds(h: History, h': History, hid: Id, draw: Id, from: nat, to: nat) {
    && from < to
    && Only(h.approvals, h'.approvals, hid, true)
    && Only(h.claims, h'.claims, hid, to >= 3)
    && Only(h.logins, h'.logins, hid, to >= 3)
    && Only(h.uses, h'.uses, hid, to >= 5)
    && Only(h.links, h'.links, hid, from < 5 <= to)
    && Only(h.sessions, h'.sessions, draw, to == 14 && draw in h'.sessions && h'.sessions[draw].creator == hid)
    && Only(h.challenges, h'.challenges, draw, from < 7 <= to && draw in h'.challenges && h'.challenges[draw].owner == hid)
    && Only(h.codes, h'.codes, draw, to == 14 && draw in h'.codes && h'.codes[draw].owner == hid)
    && Only(h.tickets, h'.tickets, draw, to == 14 && draw in h'.tickets && h'.tickets[draw].owner == hid)
    && Names(h.redeemed, h'.redeemed, hid)
    && Names(h.redeemedTickets, h'.redeemedTickets, hid)
    && h.tokens <= h'.tokens
    && |h'.tokens| <= |h.tokens| + 1
    && (|h'.tokens| == |h.tokens| + 1 ==> to == 14 && h'.tokens[|h.tokens|].minter == hid)
  }

  /** Challenge keys are written when created, and when marked used by the handler that does so. */
  ghost predicate Writes(db: Keyspace, db': Keyspace, draw: Id, h: Handler) {
    forall k {:trigger k in db'} {:trigger db'[k]} :: k in db' && k.ChallengeKey? ==>
      || (k in db && db'[k] == db[k])
      || (h.CreateChallenge? && k.challengeId == draw && db'[k].value == ChallengeValue(h.record))
      || (h.MarkSave? && k.challengeId == h.challenge)
  }

  /** Steps add rows and refresh e-mail columns; none changes a key, an owner or a status. */
  ghost predicate RowsKept(rows: Table, rows': Table) {
    forall i {:trigger i in rows} {:trigger rows'[i]} :: i in rows ==>
      && i in rows' && rows'[i].status == rows[i].status && rows'[i].user == rows[i].user
      && rows'[i].provider == rows[i].provider && rows'[i].subject == rows[i].subject
  }

  /** Which step approves, creates a session, logs in, issues a code, redeems a live one, finds its
      identity, and mints. */
  ghost predicate Sources(from: Handler, to: Handler, db: Keyspace, h: History, h': History) {
    && h'.steps == h.steps
    && (forall k {:trigger k in h'.approvals} {:trigger h'.approvals[k]} :: k in h'.approvals ==>
          from.AuthorizeLookup? || (k in h.approvals && h'.approvals[k] == h.approvals[k]))
    && (forall k {:trigger k in h'.redeemed} {:trigger h'.redeemed[k]} :: k in h'.redeemed ==>
          (k in h.redeemed && h'.redeemed[k] == h.redeemed[k]) || (from.ExchangeConsume? && k == from.code && CodeKey(k) in db))
    && (forall k {:trigger k in h'.redeemedTickets} {:trigger h'.redeemedTickets[k]} :: k in h'.redeemedTickets ==>
          || (k in h.redeemedTickets && h'.redeemedTickets[k] == h.redeemedTickets[k])
          || (from.TicketConsume? && k == from.code && TicketKey(k) in db))
    && (to.ExchangeSign? ==> from.ExchangeFind?)
    && (h'.tokens != h.tokens ==> from.ExchangeSign? || from.TicketSign?)
    && (h'.sessions == h.sessions || from.AuthorizeSave?)
    && (h'.logins == h.logins || from.CallbackVerify?)
    && (h'.codes == h.codes || from.IssueCode?)
    && (h'.tickets == h.tickets || from.RegisterIssue?)
  }

  // ---------------------------------------------------------------- what handlers do to sessions

  /** The session a handler has read and is still working on. */
  function Worked(h: Handler): Option<Id> {
    match h
    case StartResolve(sid, _) => Some(sid)
    case StartTtl(sid, _) => Some(sid)
    case StartSave(sid, _, _) => Some(sid)
    case CallbackResolve(_, sid, _) => Some(sid)
    case CallbackVerify(_, sid, _) => Some(sid)
    case CloseAndEnd(sid, _) => Some(sid)
    case LinkSelect(src, _) => if src.FromCallback? then Some(src.visit.sid) else None
    case LinkUpdate(src, _, _) => if src.FromCallback? then Some(src.visit.sid) else None
    case LinkInsert(src, _) => if src.FromCallback? then Some(src.visit.sid) else None
    case FindIdentity(v) => Some(v.sid)
    case LinkClose(v, _) => Some(v.sid)
    case RegisterClose(v, _) => Some(v.sid)
    case RegisterIssue(v) => Some(v.sid)
    case Touch(v, _, _) => Some(v.sid)
    case CreateChallenge(v, _) => Some(v.sid)
    case ReturnClose(v, _) => Some(v.sid)
    case ConfirmGet(v, _) => Some(v.sid)
    case MarkGet(v, _, _) => Some(v.sid)
    case MarkTtl(v, _, _, _) => Some(v.sid)
    case MarkSave(v, _, _, _, _) => Some(v.sid)
    case IssueCode(v, _, _) => Some(v.sid)
    case _ => None
  }

  /** The next command deletes the session. */
  predicate Closes(h: Handler) {
    h.CloseAndEnd? || h.LinkClose? || h.RegisterClose? || h.ReturnClose?
  }

  /** The handler deleted the session earlier. */
  predicate AfterClose(h: Handler) {
    || h.RegisterIssue? || (h.CreateChallenge? && h.visit.session.purpose == "link")
    || h.ConfirmGet? || h.MarkGet? || h.MarkTtl? || h.MarkSave? || h.IssueCode?
  }

  /** What the invariant knows about handlers that could close twice or not at all. */
  predicate Minds(h: Handler) {
    && (h.LinkClose? ==> h.visit.session.purpose == "link")
    && (h.Touch? ==> h.visit.session.purpose != "link")
  }

  /** A start that has read the session and will write it back. */
  predicate Starts(h: Handler) {
    h.StartResolve? || h.StartTtl? || h.StartSave?
  }

  /** A callback that may still answer the browser with a code, a ticket or an error redirect. */
  predicate Answers(h: Handler) {
    Worked(h).Some? && !Starts(h) && (h.CloseAndEnd? ==> h.redirect)
  }

  /** A handler that moves from `h` to `h'` stays with its session; one that takes up a session
      has just read it. */
  predicate Moved(h: Handler, h': Handler, db: Keyspace, now: int) {
    Worked(h').Some? ==>
      if Worked(h).Some? then
        && Worked(h') == Worked(h) && AfterClose(h') == (AfterClose(h) || Closes(h))
        && (Answers(h') ==> Answers(h)) && (Starts(h') ==> Starts(h))
      else
        && Live(db, SessionKey(Worked(h').value), now) && !AfterClose(h')
        && (Answers(h') ==> h.CallbackGet? && Worked(h') == Some(h.sid))
  }

  /** Session keys are written when created and when a start writes its session back. */
  ghost predicate SessionsWritten(db: Keyspace, db': Keyspace, h: Handler, draw: Id) {
    forall s {:trigger SessionKey(s)} :: SessionKey(s) in db' ==>
      || (SessionKey(s) in db && db'[SessionKey(s)] == db[SessionKey(s)])
      || (h.StartSave? && h.sid == s) || (h.AuthorizeSave? && s == draw)
  }

  /** What a step does to sessions: which keys it writes, which session it closes, and for which
      session it answers. */
  ghost predicate Treats(w: World, w': World, h: Handler, h': Handler, draw: Id) {
    && SessionsWritten(w.db, w'.db, h, draw)
    && w'.hist.closed == (if Closes(h) then w.hist.closed + {Worked(h).value} else w.hist.closed)
    && (Closes(h) ==> SessionKey(Worked(h).value) !in w'.db)
    && w.hist.outputs <= w'.hist.outputs && |w'.hist.outputs| <= |w.hist.outputs| + 1
    && (|w'.hist.outputs| > |w.hist.outputs| ==>
          h'.Finished? && Answers(h) && (Closes(h) || AfterClose(h)) && Worked(h) == Some(w'.hist.outputs[|w.hist.outputs|].0))
    && Moved(h, h', w.db, w.now)
  }

  /** What one step of handler `hid` may record and write. */
  ghost predicate Notes(w: World, w': World, hid: Id, c: Choice)
    requires hid in w.handlers
  {
    && w'.now == w.now && hid in w'.handlers
    && (forall k {:trigger k in w.handlers} {:trigger k in w'.handlers} :: k != hid ==>
          (k in w'.handlers <==> k in w.handlers) && (k in w.handlers ==> w'.handlers[k] == w.handlers[k]))
    && Writes(w.db, w'.db, c.draw, w.handlers[hid])
    && RowsKept(w.rows, w'.rows)
    && Sources(w.handlers[hid], w'.handlers[hid], w.db, w.hist, w'.hist)
    && Adds(w.hist, w'.hist, hid, c.draw, Stage(w.handlers[hid]), Stage(w'.handlers[hid]))
  }

  /** All that one step of handler `hid` may do to the state. */
  ghost predicate StepAdds(w: World, w': World, hid: Id, c: Choice)
    requires hid in w.handlers
  {
    Notes(w, w', hid, c) && Treats(w, w', w.handlers[hid], w'.handlers[hid], c.draw)
  }

  // ---------------------------------------------------------------- the shapes a step can end in

  lemma OnlyPut<V(!new)>(a: map<Id, V>, key: Id, v: V)
    ensures Only(a, a[key := v], key, true)
  {
  }

  lemma NamesPut(a: map<Id, Id>, key: Id, hid: Id)
    ensures Names(a, a[key := hid], hid)
  {
  }

  /** What a step leaves alone is kept. */
  lemma Unchanged(h: History, rows: Table)
    ensures forall key, allowed :: Only(h.approvals, h.approvals, key, allowed) && Only(h.claims, h.claims, key, allowed)
                                   && Only(h.logins, h.logins, key, allowed) && Only(h.uses, h.uses, key, allowed)
                                   && Only(h.links, h.links, key, allowed) && Only(h.sessions, h.sessions, key, allowed)
                                   && Only(h.challenges, h.challenges, key, allowed)
                                   && Only(h.codes, h.codes, key, allowed) && Only(h.tickets, h.tickets, key, allowed)
    ensures forall hid :: Names(h.redeemed, h.redeemed, hid) && Names(h.redeemedTickets, h.redeemedTickets, hid)
    ensures RowsKept(rows, rows)
  {
  }

  /** A step that closes nothing and answers nothing. */
  lemma TreatsQuietly(w: World, w': World, h: Handler, h': Handler, draw: Id)
    requires !Closes(h) && Moved(h, h', w.db, w.now)
    requires w'.hist.closed == w.hist.closed && w'.hist.outputs == w.hist.outputs
    requires SessionsWritten(w.db, w'.db, h, draw)
    ensures Treats(w, w', h, h', draw)
  {
  }

  lemma FinishedIsLast()
    ensures Stage(Finished) == 14
  {
  }

  lemma CreatorStage(h: Handler)
    requires h.CreateChallenge?
    ensures Stage(h) == 6
  {
  }

  lemma TreatsClosing(w: World, hid: Id, c: Choice, sid: Id, h: Handler)
    requires hid in w.handlers && Closes(w.handlers[hid]) && Worked(w.handlers[hid]) == Some(sid) && Moved(w.handlers[hid], h, w.db, w.now)
    ensures Treats(w, Goto(Close(w, sid), hid, h), w.handlers[hid], h, c.draw)
  {
  }

  lemma TreatsClosingOutput(w: World, hid: Id, c: Choice, sid: Id, o: Output)
    requires hid in w.handlers && Answers(w.handlers[hid]) && Closes(w.handlers[hid]) && Worked(w.handlers[hid]) == Some(sid)
    ensures Treats(w, EndWith(Close(w, sid), hid, sid, o), w.handlers[hid], Finished, c.draw)
  {
  }

  lemma TreatsOutput(w: World, w1: World, hid: Id, c: Choice, sid: Id, o: Output)
    requires hid in w.handlers && AfterClose(w.handlers[hid]) && Worked(w.handlers[hid]) == Some(sid)
    requires Answers(w.handlers[hid])
    requires w1.hist.closed == w.hist.closed && w1.hist.outputs == w.hist.outputs
    requires SessionsWritten(w.db, w1.db, w.handlers[hid], c.draw)
    ensures Treats(w, EndWith(w1, hid, sid, o), w.handlers[hid], Finished, c.draw)
  {
  }

  lemma AddsGoto(w: World, hid: Id, c: Choice, h: Handler)
    requires hid in w.handlers && Stage(h) > Stage(w.handlers[hid])
    requires h.ExchangeSign? ==> w.handlers[hid].ExchangeFind?
    requires !Closes(w.handlers[hid]) && Moved(w.handlers[hid], h, w.db, w.now)
    ensures StepAdds(w, Goto(w, hid, h), hid, c)
  {
    hide Only, Names, RowsKept, Treats, Stage, Worked, AfterClose, Closes, Moved, Answers, Starts;
    Unchanged(w.hist, w.rows);
    TreatsQuietly(w, Goto(w, hid, h), w.handlers[hid], h, c.draw);
  }

  lemma AddsCloseGoto(w: World, hid: Id, c: Choice, sid: Id, h: Handler)
    requires hid in w.handlers && Stage(h) > Stage(w.handlers[hid])
    requires h.ExchangeSign? ==> w.handlers[hid].ExchangeFind?
    requires Closes(w.handlers[hid]) && Worked(w.handlers[hid]) == Some(sid) && Moved(w.handlers[hid], h, w.db, w.now)
    ensures StepAdds(w, Goto(Close(w, sid), hid, h), hid, c)
  {
    hide Only, Names, RowsKept, Treats, Stage, Worked, AfterClose, Closes, Moved, Answers, Starts;
    Unchanged(w.hist, w.rows);
    TreatsClosing(w, hid, c, sid, h);
  }

  lemma AddsCloseOutput(w: World, hid: Id, c: Choice, sid: Id, o: Output)
    requires hid in w.handlers && Stage(w.handlers[hid]) < 14 && Answers(w.handlers[hid])
    requires Closes(w.handlers[hid]) && Worked(w.handlers[hid]) == Some(sid)
    ensures StepAdds(w, EndWith(Close(w, sid), hid, sid, o), hid, c)
  {
    hide Only, Names, RowsKept, Treats, Stage, Worked, AfterClose, Closes, Moved, Answers, Starts;
    FinishedIsLast();
    Unchanged(w.hist, w.rows);
    TreatsClosingOutput(w, hid, c, sid, o);
  }

  lemma AddsUse(w: World, hid: Id, c: Choice, row: Id, h: Handler)
    requires hid in w.handlers && Stage(h) > Stage(w.handlers[hid]) && Stage(h) >= 5
    requires h.ExchangeSign? ==> w.handlers[hid].ExchangeFind?
    requires !Closes(w.handlers[hid]) && Moved(w.handlers[hid], h, w.db, w.now)
    ensures StepAdds(w, Goto(WithUse(w, hid, row), hid, h), hid, c)
  {
    hide Only, Names, RowsKept, Treats, Stage, Worked, AfterClose, Closes, Moved, Answers, Starts;
    Unchanged(w.hist, w.rows);
    TreatsQuietly(w, Goto(WithUse(w, hid, row), hid, h), w.handlers[hid], h, c.draw);
    OnlyPut(w.hist.uses, hid, row);
  }

  lemma AddsLogin(w: World, hid: Id, c: Choice, l: Login, h: Handler)
    requires hid in w.handlers && w.handlers[hid].CallbackVerify?
    requires hid in w.handlers && Stage(h) > Stage(w.handlers[hid]) && Stage(h) >= 3
    requires h.ExchangeSign? ==> w.handlers[hid].ExchangeFind?
    requires !Closes(w.handlers[hid]) && Moved(w.handlers[hid], h, w.db, w.now)
    ensures StepAdds(w, Goto(WithLogin(w, hid, l), hid, h), hid, c)
  {
    hide Only, Names, RowsKept, Treats, Stage, Worked, AfterClose, Closes, Moved, Answers, Starts;
    Unchanged(w.hist, w.rows);
    TreatsQuietly(w, Goto(WithLogin(w, hid, l), hid, h), w.handlers[hid], h, c.draw);
    OnlyPut(w.hist.logins, hid, l);
  }

  lemma AddsVerifier(w: World, hid: Id, c: Choice, sid: Id, s: OAuthSession)
    requires hid in w.handlers && Stage(w.handlers[hid]) < 2
    requires !Closes(w.handlers[hid]) && Moved(w.handlers[hid], StartTtl(sid, s.(codeVerifier := Some(c.draw))), w.db, w.now)
    ensures StepAdds(w, StepWithVerifier(w, sid, s, hid, c), hid, c)
  {
    hide Only, Names, RowsKept, Treats;
    Unchanged(w.hist, w.rows);
    TreatsQuietly(w, StepWithVerifier(w, sid, s, hid, c), w.handlers[hid], StartTtl(sid, s.(codeVerifier := Some(c.draw))), c.draw);
  }

  lemma AddsApproval(w: World, hid: Id, c: Choice, a: Approval, h: Handler)
    requires hid in w.handlers && Stage(h) > Stage(w.handlers[hid])
    requires w.handlers[hid].AuthorizeLookup? && !h.ExchangeSign?
    requires Moved(w.handlers[hid], h, w.db, w.now)
    ensures StepAdds(w, Goto(WithApproval(w, hid, a), hid, h), hid, c)
  {
    hide Only, Names, RowsKept, Treats, Stage, Worked, AfterClose, Moved, Answers, Starts;
    Unchanged(w.hist, w.rows);
    TreatsQuietly(w, Goto(WithApproval(w, hid, a), hid, h), w.handlers[hid], h, c.draw);
    OnlyPut(w.hist.approvals, hid, a);
  }

  lemma NotesRedeemed(w: World, hid: Id, c: Choice, code: Id, h: Handler)
    requires hid in w.handlers && Stage(h) > Stage(w.handlers[hid])
    requires w.handlers[hid].ExchangeConsume? && w.handlers[hid].code == code && !h.ExchangeSign? && Live(w.db, CodeKey(code), w.now)
    requires Moved(w.handlers[hid], h, w.db, w.now)
    ensures Notes(w, Goto(WithRedeemed(w.(db := Consumed(w.db, CodeKey(code), w.now)), code, hid), hid, h), hid, c)
  {
    hide Only, Names, RowsKept, Stage, Worked, AfterClose, Closes, Moved, Answers, Starts;
    Unchanged(w.hist, w.rows);
    NamesPut(w.hist.redeemed, code, hid);
  }

  lemma AddsRedeemed(w: World, hid: Id, c: Choice, code: Id, h: Handler)
    requires hid in w.handlers && Stage(h) > Stage(w.handlers[hid])
    requires w.handlers[hid].ExchangeConsume? && w.handlers[hid].code == code && !h.ExchangeSign? && Live(w.db, CodeKey(code), w.now)
    requires Moved(w.handlers[hid], h, w.db, w.now)
    ensures StepAdds(w, Goto(WithRedeemed(w.(db := Consumed(w.db, CodeKey(code), w.now)), code, hid), hid, h), hid, c)
  {
    hide Notes, Treats;
    NotesRedeemed(w, hid, c, code, h);
    TreatsQuietly(w, Goto(WithRedeemed(w.(db := Consumed(w.db, CodeKey(code), w.now)), code, hid), hid, h), w.handlers[hid], h, c.draw);
  }

  lemma NotesRedeemedTicket(w: World, hid: Id, c: Choice, code: Id, h: Handler)
    requires hid in w.handlers && Stage(h) > Stage(w.handlers[hid])
    requires w.handlers[hid].TicketConsume? && w.handlers[hid].code == code && Live(w.db, TicketKey(code), w.now)
    requires h.ExchangeSign? ==> w.handlers[hid].ExchangeFind?
    requires !Closes(w.handlers[hid]) && Moved(w.handlers[hid], h, w.db, w.now)
    ensures Notes(w, Goto(WithRedeemedTicket(w.(db := Consumed(w.db, TicketKey(code), w.now)), code, hid), hid, h), hid, c)
  {
    hide Only, Names, RowsKept, Stage, Worked, AfterClose, Closes, Moved, Answers, Starts;
    Unchanged(w.hist, w.rows);
    NamesPut(w.hist.redeemedTickets, code, hid);
  }

  lemma AddsRedeemedTicket(w: World, hid: Id, c: Choice, code: Id, h: Handler)
    requires hid in w.handlers && Stage(h) > Stage(w.handlers[hid])
    requires w.handlers[hid].TicketConsume? && w.handlers[hid].code == code && Live(w.db, TicketKey(code), w.now)
    requires h.ExchangeSign? ==> w.handlers[hid].ExchangeFind?
    requires !Closes(w.handlers[hid]) && Moved(w.handlers[hid], h, w.db, w.now)
    ensures StepAdds(w, Goto(WithRedeemedTicket(w.(db := Consumed(w.db, TicketKey(code), w.now)), code, hid), hid, h), hid, c)
  {
    hide Notes, Treats;
    NotesRedeemedTicket(w, hid, c, code, h);
    TreatsQuietly(w, Goto(WithRedeemedTicket(w.(db := Consumed(w.db, TicketKey(code), w.now)), code, hid), hid, h), w.handlers[hid], h, c.draw);
  }

  lemma NotesSession(w: World, hid: Id, c: Choice, r: SessionRecord, v: Value, ttl: int)
    requires hid in w.handlers && Stage(w.handlers[hid]) < 14 && r.creator == hid
    requires w.handlers[hid].AuthorizeSave?
    ensures Notes(w, End(Store(WithSession(w, c.draw, r), SessionKey(c.draw), v, ttl), hid), hid, c)
  {
    hide Only, Names, RowsKept, Stage, Worked, AfterClose, Closes, Writes, SetEx;
    WritesOther(w.db, SessionKey(c.draw), v, ttl, w.now, c.draw, w.handlers[hid]);
    FinishedIsLast();
    Unchanged(w.hist, w.rows);
    OnlyPut(w.hist.sessions, c.draw, r);
  }

  lemma AddsSession(w: World, hid: Id, c: Choice, r: SessionRecord, v: Value, ttl: int)
    requires hid in w.handlers && Stage(w.handlers[hid]) < 14 && r.creator == hid
    requires w.handlers[hid].AuthorizeSave?
    ensures StepAdds(w, End(Store(WithSession(w, c.draw, r), SessionKey(c.draw), v, ttl), hid), hid, c)
  {
    hide Notes, Treats;
    NotesSession(w, hid, c, r, v, ttl);
    TreatsQuietly(w, End(Store(WithSession(w, c.draw, r), SessionKey(c.draw), v, ttl), hid), w.handlers[hid], Finished, c.draw);
  }

  lemma WritesOther(db: Keyspace, k: Key, v: Value, ttl: int, now: int, draw: Id, h: Handler)
    requires !k.ChallengeKey?
    ensures Writes(db, SetEx(db, k, v, ttl, now), draw, h)
  {
  }

  lemma NotesCode(w: World, hid: Id, c: Choice, r: CodeInfo, v: Value, ttl: int, sid: Id)
    requires hid in w.handlers && w.handlers[hid].IssueCode?
    requires hid in w.handlers && Stage(w.handlers[hid]) < 14 && r.owner == hid
    requires AfterClose(w.handlers[hid]) && Worked(w.handlers[hid]) == Some(sid)
    ensures Notes(w, EndWith(Store(WithCode(w, c.draw, r), CodeKey(c.draw), v, ttl), hid, sid, CodeOutput), hid, c)
  {
    hide Only, Names, RowsKept, Stage, Worked, AfterClose, Closes, Writes, SetEx;
    WritesOther(w.db, CodeKey(c.draw), v, ttl, w.now, c.draw, w.handlers[hid]);
    FinishedIsLast();
    Unchanged(w.hist, w.rows);
    OnlyPut(w.hist.codes, c.draw, r);
  }

  lemma AddsCode(w: World, hid: Id, c: Choice, r: CodeInfo, v: Value, ttl: int, sid: Id)
    requires hid in w.handlers && w.handlers[hid].IssueCode?
    requires hid in w.handlers && Stage(w.handlers[hid]) < 14 && r.owner == hid
    requires Answers(w.handlers[hid])
    requires AfterClose(w.handlers[hid]) && Worked(w.handlers[hid]) == Some(sid)
    ensures StepAdds(w, EndWith(Store(WithCode(w, c.draw, r), CodeKey(c.draw), v, ttl), hid, sid, CodeOutput), hid, c)
  {
    hide Notes, Treats;
    NotesCode(w, hid, c, r, v, ttl, sid);
    TreatsOutput(w, Store(WithCode(w, c.draw, r), CodeKey(c.draw), v, ttl), hid, c, sid, CodeOutput);
  }

  lemma NotesTicket(w: World, hid: Id, c: Choice, r: TicketInfo, v: Value, ttl: int, sid: Id)
    requires hid in w.handlers && w.handlers[hid].RegisterIssue?
    requires hid in w.handlers && Stage(w.handlers[hid]) < 14 && r.owner == hid
    requires AfterClose(w.handlers[hid]) && Worked(w.handlers[hid]) == Some(sid)
    ensures Notes(w, EndWith(Store(WithTicket(w, c.draw, r), TicketKey(c.draw), v, ttl), hid, sid, TicketOutput), hid, c)
  {
    hide Only, Names, RowsKept, Stage, Worked, AfterClose, Closes, Writes, SetEx;
    WritesOther(w.db, TicketKey(c.draw), v, ttl, w.now, c.draw, w.handlers[hid]);
    FinishedIsLast();
    Unchanged(w.hist, w.rows);
    OnlyPut(w.hist.tickets, c.draw, r);
  }

  lemma AddsTicket(w: World, hid: Id, c: Choice, r: TicketInfo, v: Value, ttl: int, sid: Id)
    requires hid in w.handlers && w.handlers[hid].RegisterIssue?
    requires hid in w.handlers && Stage(w.handlers[hid]) < 14 && r.owner == hid
    requires Answers(w.handlers[hid])
    requires AfterClose(w.handlers[hid]) && Worked(w.handlers[hid]) == Some(sid)
    ensures StepAdds(w, EndWith(Store(WithTicket(w, c.draw, r), TicketKey(c.draw), v, ttl), hid, sid, TicketOutput), hid, c)
  {
    hide Notes, Treats;
    NotesTicket(w, hid, c, r, v, ttl, sid);
    TreatsOutput(w, Store(WithTicket(w, c.draw, r), TicketKey(c.draw), v, ttl), hid, c, sid, TicketOutput);
  }

  lemma NotesChallenge(w: World, hid: Id, c: Choice, r: ChallengeInfo, ttl: int, h: Handler)
    requires hid in w.handlers && w.handlers[hid].CreateChallenge? && w.handlers[hid].record == r.record && r.owner == hid
    requires Stage(h) >= 7 && !h.ExchangeSign?
    requires Moved(w.handlers[hid], h, w.db, w.now)
    ensures Notes(w, Goto(Store(WithChallenge(w, c.draw, r), ChallengeKey(c.draw), ChallengeValue(r.record), ttl), hid, h), hid, c)
  {
    hide Only, Names, RowsKept, Stage, Worked, AfterClose, Closes;
    CreatorStage(w.handlers[hid]);
    Unchanged(w.hist, w.rows);
    OnlyPut(w.hist.challenges, c.draw, r);
  }

  lemma AddsChallenge(w: World, hid: Id, c: Choice, r: ChallengeInfo, ttl: int, h: Handler)
    requires hid in w.handlers && w.handlers[hid].CreateChallenge? && w.handlers[hid].record == r.record && r.owner == hid
    requires Stage(h) >= 7 && !h.ExchangeSign?
    requires Moved(w.handlers[hid], h, w.db, w.now)
    ensures StepAdds(w, Goto(Store(WithChallenge(w, c.draw, r), ChallengeKey(c.draw), ChallengeValue(r.record), ttl), hid, h), hid, c)
  {
    hide Notes, Treats;
    NotesChallenge(w, hid, c, r, ttl, h);
    TreatsQuietly(w, Goto(Store(WithChallenge(w, c.draw, r), ChallengeKey(c.draw), ChallengeValue(r.record), ttl), hid, h), w.handlers[hid], h, c.draw);
  }

  lemma AddsLink(w: World, rows: Table, hid: Id, c: Choice, o: LinkOutcome, h: Handler)
    requires hid in w.handlers && Stage(w.handlers[hid]) < 5 && Stage(h) > Stage(w.handlers[hid]) && Stage(h) >= 5
    requires !h.ExchangeSign? && RowsKept(w.rows, rows)
    requires !Closes(w.handlers[hid]) && Moved(w.handlers[hid], h, w.db, w.now)
    ensures StepAdds(w, Goto(WithLink(w.(rows := rows), hid, o), hid, h), hid, c)
  {
    hide Only, Names, RowsKept, Treats, Stage, Worked, AfterClose, Closes, Moved, Answers, Starts;
    Unchanged(w.hist, w.rows);
    TreatsQuietly(w, Goto(WithLink(w.(rows := rows), hid, o), hid, h), w.handlers[hid], h, c.draw);
    OnlyPut(w.hist.links, hid, o);
  }

  lemma AddsLinkUse(w: World, rows: Table, hid: Id, c: Choice, o: LinkOutcome, row: Id, h: Handler)
    requires hid in w.handlers && Stage(w.handlers[hid]) < 5 && Stage(h) > Stage(w.handlers[hid]) && Stage(h) >= 5
    requires !h.ExchangeSign? && RowsKept(w.rows, rows)
    requires !Closes(w.handlers[hid]) && Moved(w.handlers[hid], h, w.db, w.now)
    ensures StepAdds(w, Goto(WithUse(WithLink(w.(rows := rows), hid, o), hid, row), hid, h), hid, c)
  {
    hide Only, Names, RowsKept, Treats, Stage, Worked, AfterClose, Closes, Moved, Answers, Starts;
    Unchanged(w.hist, w.rows);
    TreatsQuietly(w, Goto(WithUse(WithLink(w.(rows := rows), hid, o), hid, row), hid, h), w.handlers[hid], h, c.draw);
    OnlyPut(w.hist.links, hid, o);
    OnlyPut(w.hist.uses, hid, row);
  }

  /** A step of `IdentityService.link` called from `src`. */
  predicate Asks(h: Handler, src: LinkSource) {
    (h.LinkSelect? || h.LinkUpdate? || h.LinkInsert?) && h.source == src
  }

  lemma AddsAnswer(w: World, rows: Table, hid: Id, c: Choice, src: LinkSource, a: LinkArgs, r: LinkResult)
    requires hid in w.handlers && Stage(w.handlers[hid]) < 5 && RowsKept(w.rows, rows) && Asks(w.handlers[hid], src)
    ensures StepAdds(w, Answer(w.(rows := rows), hid, src, a, r), hid, c)
  {
    hide StepAdds;
    if src.FromServer? {
      AddsLink(w, rows, hid, c, LinkOutcome(a, r), Finished);
    } else if r.Linked? {
      AddsLinkUse(w, rows, hid, c, LinkOutcome(a, r), r.id, LinkClose(src.visit, r));
    } else {
      AddsLink(w, rows, hid, c, LinkOutcome(a, r), LinkClose(src.visit, r));
    }
  }

  lemma AddsInsert(w: World, hid: Id, c: Choice, id: Id, a: LinkArgs, o: RowOrigin, w': World)
    requires hid in w.handlers && id !in w.rows && StepAdds(WithInsert(w, id, a, o), w', hid, c)
    ensures StepAdds(w, w', hid, c)
  {
    forall i | i in w.rows ensures i in w'.rows && w'.rows[i].status == w.rows[i].status && w'.rows[i].user == w.rows[i].user {
      assert i in WithInsert(w, id, a, o).rows;
    }
  }

  // ---------------------------------------------------------------- each step adds what it may

  lemma AddsAuthorizeLookup(cfg: Config, w: World, hid: Id, c: Choice, q: AuthorizeRequest)
    requires hid in w.handlers && w.handlers[hid] == AuthorizeLookup(q)
    ensures StepAdds(w, StepAuthorizeLookup(w, hid, q), hid, c)
  {
    hide StepAdds;
    var a := Approval(q, Index(w));
    if !Permits(w.clients, q.clientId, q.redirectUri, q.purpose) {
      AddsGoto(w, hid, c, Finished);
    } else if q.clientState == "" {
      AddsGoto(w, hid, c, Finished);
    } else if q.partnerSlug.Some? && !IsSlug(q.partnerSlug.value) {
      AddsGoto(w, hid, c, Finished);
    } else if q.purpose != "link" {
      AddsApproval(w, hid, c, a, AuthorizeSave(q, None));
    } else {
      AddsApproval(w, hid, c, a, AuthorizeCheck(q));
    }
  }

  lemma AddsAuthorizeCheck(cfg: Config, w: World, hid: Id, c: Choice, q: AuthorizeRequest)
    requires hid in w.handlers && w.handlers[hid] == AuthorizeCheck(q)
    ensures StepAdds(w, StepAuthorizeCheck(w, hid, q), hid, c)
  {
    hide StepAdds;
    if q.ticket.None? || q.ticket.value.exp <= w.now / 1000 {
      AddsGoto(w, hid, c, Finished);
    } else {
      AddsGoto(w, hid, c, AuthorizeClaim(q, q.ticket.value, w.now / 1000));
    }
  }

  lemma NotesAuthorizeClaim(cfg: Config, w: World, hid: Id, c: Choice, q: AuthorizeRequest, t: LinkTicket, readAt: int)
    requires hid in w.handlers && w.handlers[hid] == AuthorizeClaim(q, t, readAt)
    ensures Notes(w, StepAuthorizeClaim(w, hid, q, t, readAt), hid, c)
  {
    hide Only, Names, RowsKept;
    Unchanged(w.hist, w.rows);
    OnlyPut(w.hist.claims, hid, TicketClaim(t, w.now, Index(w)));
    if Live(w.db, LinkNonceKey(t.nonce), w.now) {
    }
  }

  lemma AddsAuthorizeClaim(cfg: Config, w: World, hid: Id, c: Choice, q: AuthorizeRequest, t: LinkTicket, readAt: int)
    requires hid in w.handlers && w.handlers[hid] == AuthorizeClaim(q, t, readAt)
    ensures StepAdds(w, StepAuthorizeClaim(w, hid, q, t, readAt), hid, c)
  {
    hide Notes, Treats;
    NotesAuthorizeClaim(cfg, w, hid, c, q, t, readAt);
    if Live(w.db, LinkNonceKey(t.nonce), w.now) {
      TreatsQuietly(w, End(w, hid), w.handlers[hid], Finished, c.draw);
    } else {
      TreatsQuietly(w, StepAuthorizeClaim(w, hid, q, t, readAt), w.handlers[hid], AuthorizeSave(q, NonEmpty(t.kisUserId)), c.draw);
    }
  }

  lemma AddsAuthorizeSave(cfg: Config, w: World, hid: Id, c: Choice, q: AuthorizeRequest, linkUser: Option<string>)
    requires hid in w.handlers && w.handlers[hid] == AuthorizeSave(q, linkUser)
    ensures StepAdds(w, StepAuthorizeSave(w, hid, q, linkUser, c), hid, c)
  {
    hide StepAdds;
    var s := NewSession(q, linkUser, c);
    AddsSession(w, hid, c, SessionRecord(s, hid, Index(w)), SessionValue(s), SESSION_TTL_SECONDS);
  }

  lemma AddsStartGet(cfg: Config, w: World, hid: Id, c: Choice, route: Route, sid: Id)
    requires hid in w.handlers && w.handlers[hid] == StartGet(route, sid)
    ensures StepAdds(w, StepStartGet(w, hid, route, sid, c), hid, c)
  {
    hide StepAdds, StepWithVerifier;
    if ReadSession(w, sid).None? {
      AddsGoto(w, hid, c, Finished);
    } else {
      var s := ReadSession(w, sid).value;
      if !RouteServes(route, s) {
        AddsGoto(w, hid, c, Finished);
      } else if route.Enterprise? {
        AddsGoto(w, hid, c, StartResolve(sid, s));
      } else {
        AddsVerifier(w, hid, c, sid, s);
      }
    }
  }

  lemma AddsStartResolve(cfg: Config, w: World, hid: Id, c: Choice, sid: Id, s: OAuthSession)
    requires hid in w.handlers && w.handlers[hid] == StartResolve(sid, s)
    ensures StepAdds(w, StepStartResolve(w, hid, sid, s, c), hid, c)
  {
    hide StepAdds, StepWithVerifier;
    if c.ok {
      AddsVerifier(w, hid, c, sid, s);
    } else {
      AddsGoto(w, hid, c, CloseAndEnd(sid, false));
    }
  }

  lemma AddsStartTtl(cfg: Config, w: World, hid: Id, c: Choice, sid: Id, s: OAuthSession)
    requires hid in w.handlers && w.handlers[hid] == StartTtl(sid, s)
    ensures StepAdds(w, StepStartTtl(w, hid, sid, s), hid, c)
  {
    hide StepAdds;
    AddsGoto(w, hid, c, StartSave(sid, s, TtlReply(w.db, SessionKey(sid), w.now)));
  }

  lemma AddsStartSave(cfg: Config, w: World, hid: Id, c: Choice, sid: Id, s: OAuthSession, ttl: int)
    requires hid in w.handlers && w.handlers[hid] == StartSave(sid, s, ttl)
    ensures StepAdds(w, StepStartSave(w, hid, sid, s, ttl), hid, c)
  {
    hide Only, Names, RowsKept;
    Unchanged(w.hist, w.rows);
  }

  lemma AddsCallbackGet(cfg: Config, w: World, hid: Id, c: Choice, route: Route, sid: Id, cb: CallbackRequest)
    requires hid in w.handlers && w.handlers[hid] == CallbackGet(route, sid, cb)
    ensures StepAdds(w, StepCallbackGet(w, hid, route, sid, cb), hid, c)
  {
    hide StepAdds;
    if ReadSession(w, sid).None? {
      AddsGoto(w, hid, c, Finished);
    } else {
      var s := ReadSession(w, sid).value;
      if !RouteServes(route, s) || cb.state != Some(s.state) {
        AddsGoto(w, hid, c, Finished);
      } else if cb.hasError {
        AddsGoto(w, hid, c, CloseAndEnd(sid, true));
      } else if !cb.hasCode || s.codeVerifier.None? {
        AddsGoto(w, hid, c, Finished);
      } else if route.Enterprise? {
        AddsGoto(w, hid, c, CallbackResolve(route, sid, s));
      } else {
        AddsGoto(w, hid, c, CallbackVerify(route, sid, s));
      }
    }
  }

  lemma AddsCallbackResolve(cfg: Config, w: World, hid: Id, c: Choice, route: Route, sid: Id, s: OAuthSession)
    requires hid in w.handlers && w.handlers[hid] == CallbackResolve(route, sid, s)
    ensures StepAdds(w, StepCallbackResolve(w, hid, route, sid, s, c), hid, c)
  {
    hide StepAdds;
    AddsGoto(w, hid, c, if c.ok then CallbackVerify(route, sid, s) else CloseAndEnd(sid, false));
  }

  lemma AddsCallbackVerify(cfg: Config, w: World, hid: Id, c: Choice, route: Route, sid: Id, s: OAuthSession)
    requires hid in w.handlers && w.handlers[hid] == CallbackVerify(route, sid, s)
    ensures StepAdds(w, StepCallbackVerify(w, hid, route, sid, s, c), hid, c)
  {
    hide StepAdds;
    if !c.ok || c.who.sub == "" || s.codeVerifier.None? {
      AddsGoto(w, hid, c, CloseAndEnd(sid, true));
    } else {
      var v := Visit(route, sid, s, c.who);
      var login := Login(sid, route, s.nonce, s.codeVerifier.value, c.who, Index(w));
      if s.purpose != "link" {
        AddsLogin(w, hid, c, login, FindIdentity(v));
      } else if s.linkKisUserId.None? {
        AddsLogin(w, hid, c, login, CloseAndEnd(sid, false));
      } else {
        AddsLogin(w, hid, c, login, LinkSelect(FromCallback(v), ArgsOf(v)));
      }
    }
  }

  lemma AddsCloseAndEnd(cfg: Config, w: World, hid: Id, c: Choice, sid: Id, redirect: bool)
    requires hid in w.handlers && w.handlers[hid] == CloseAndEnd(sid, redirect)
    ensures StepAdds(w, StepCloseAndEnd(w, hid, sid, redirect), hid, c)
  {
    hide StepAdds;
    if redirect {
      AddsCloseOutput(w, hid, c, sid, ErrorOutput);
    } else {
      AddsCloseGoto(w, hid, c, sid, Finished);
    }
  }

  lemma AddsFindIdentity(cfg: Config, w: World, hid: Id, c: Choice, v: Visit)
    requires hid in w.handlers && w.handlers[hid] == FindIdentity(v)
    ensures StepAdds(w, StepFindIdentity(w, hid, v), hid, c)
  {
    hide StepAdds;
    match FindByKey(w.rows, ProviderOf(v.route), SubjectOf(v.route, v.who.sub))
    case None =>
      AddsGoto(w, hid, c, if v.session.purpose == "registration" then RegisterClose(v, false) else CloseAndEnd(v.sid, true));
    case Some(id) =>
      AddsUse(w, hid, c, id, if v.session.purpose == "registration" then RegisterClose(v, true) else Touch(v, id, w.rows[id].user));
  }

  lemma AddsLinkSelect(cfg: Config, w: World, hid: Id, c: Choice, src: LinkSource, a: LinkArgs)
    requires hid in w.handlers && w.handlers[hid] == LinkSelect(src, a)
    ensures StepAdds(w, StepLinkSelect(w, hid, src, a), hid, c)
  {
    hide StepAdds;
    match FindByKey(w.rows, a.provider, a.subject)
    case None =>
      AddsGoto(w, hid, c, LinkInsert(src, a));
    case Some(id) =>
      if w.rows[id].user != a.user {
        AddsAnswer(w, w.rows, hid, c, src, a, AlreadyLinked);
      } else {
        AddsGoto(w, hid, c, LinkUpdate(src, a, id));
      }
  }

  lemma AddsLinkUpdate(cfg: Config, w: World, hid: Id, c: Choice, src: LinkSource, a: LinkArgs, id: Id)
    requires hid in w.handlers && w.handlers[hid] == LinkUpdate(src, a, id)
    ensures StepAdds(w, StepLinkUpdate(w, hid, src, a, id), hid, c)
  {
    hide StepAdds;
    if id in w.rows {
      AddsAnswer(w, Refreshed(w.rows, id, a), hid, c, src, a, Linked(id));
    } else {
      AddsGoto(w, hid, c, Finished);
    }
  }

  lemma AddsLinkInsert(cfg: Config, w: World, hid: Id, c: Choice, src: LinkSource, a: LinkArgs)
    requires hid in w.handlers && w.handlers[hid] == LinkInsert(src, a) && c.draw !in w.rows
    ensures StepAdds(w, StepLinkInsert(w, hid, src, a, c), hid, c)
  {
    hide StepAdds, Answer;
    if Conflicts(w.rows, a) {
      AddsAnswer(w, w.rows, hid, c, src, a, AlreadyLinked);
    } else {
      var o := if src.FromServer? then ByServer else ByCallback(hid);
      var w1 := WithInsert(w, c.draw, a, o);
      AddsAnswer(w1, w1.rows, hid, c, src, a, Linked(c.draw));
      AddsInsert(w, hid, c, c.draw, a, o, Answer(w1, hid, src, a, Linked(c.draw)));
    }
  }

  lemma AddsLinkClose(cfg: Config, w: World, hid: Id, c: Choice, v: Visit, r: LinkResult)
    requires hid in w.handlers && w.handlers[hid] == LinkClose(v, r) && v.session.purpose == "link"
    ensures StepAdds(w, StepLinkClose(cfg, w, hid, v, r), hid, c)
  {
    hide StepAdds;
    if r.AlreadyLinked? {
      AddsCloseOutput(w, hid, c, v.sid, ErrorOutput);
    } else if v.session.linkKisUserId.None? {
      AddsCloseGoto(w, hid, c, v.sid, Finished);
    } else {
      AddsCloseGoto(w, hid, c, v.sid, CreateChallenge(v, RecordFor(cfg, v, v.session.linkKisUserId.value, r.id)));
    }
  }

  lemma AddsRegisterClose(cfg: Config, w: World, hid: Id, c: Choice, v: Visit, known: bool)
    requires hid in w.handlers && w.handlers[hid] == RegisterClose(v, known)
    ensures StepAdds(w, StepRegisterClose(w, hid, v, known), hid, c)
  {
    hide StepAdds;
    if known {
      AddsCloseOutput(w, hid, c, v.sid, ErrorOutput);
    } else {
      AddsCloseGoto(w, hid, c, v.sid, RegisterIssue(v));
    }
  }

  lemma AddsRegisterIssue(cfg: Config, w: World, hid: Id, c: Choice, v: Visit)
    requires hid in w.handlers && w.handlers[hid] == RegisterIssue(v)
    ensures StepAdds(w, StepRegisterIssue(cfg, w, hid, v, c), hid, c)
  {
    hide StepAdds;
    AddsTicket(w, hid, c, TicketInfo(TicketFor(v), v.sid, hid, Index(w)), TicketValue(TicketFor(v)), cfg.authCodeTtlSeconds, v.sid);
  }

  lemma AddsTouch(cfg: Config, w: World, hid: Id, c: Choice, v: Visit, row: Id, user: string)
    requires hid in w.handlers && w.handlers[hid] == Touch(v, row, user) && v.session.purpose != "link"
    ensures StepAdds(w, StepTouch(cfg, w, hid, v, row, user), hid, c)
  {
    hide StepAdds;
    AddsGoto(w, hid, c, CreateChallenge(v, RecordFor(cfg, v, user, row)));
  }

  lemma AddsCreateChallenge(cfg: Config, w: World, hid: Id, c: Choice, v: Visit, r: ChallengeRecord)
    requires hid in w.handlers && w.handlers[hid] == CreateChallenge(v, r)
    ensures StepAdds(w, StepCreateChallenge(cfg, w, hid, v, r, c), hid, c)
  {
    hide StepAdds;
    AddsChallenge(w, hid, c, ChallengeInfo(v.sid, hid, r, Index(w)), cfg.challengeTtlSeconds,
                  if v.session.purpose == "link" then ConfirmGet(v, c.draw) else ReturnClose(v, c.draw));
  }

  lemma AddsReturnClose(cfg: Config, w: World, hid: Id, c: Choice, v: Visit, ch: Id)
    requires hid in w.handlers && w.handlers[hid] == ReturnClose(v, ch)
    ensures StepAdds(w, StepReturnClose(w, hid, v, ch), hid, c)
  {
    hide StepAdds;
    AddsCloseGoto(w, hid, c, v.sid, ConfirmGet(v, ch));
  }

  lemma AddsConfirmGet(cfg: Config, w: World, hid: Id, c: Choice, v: Visit, ch: Id)
    requires hid in w.handlers && w.handlers[hid] == ConfirmGet(v, ch)
    ensures StepAdds(w, StepConfirmGet(w, hid, v, ch), hid, c)
  {
    hide StepAdds;
    if ReadChallenge(w, ch).None? || !Confirmable(ReadChallenge(w, ch).value) {
      AddsGoto(w, hid, c, Finished);
    } else {
      AddsGoto(w, hid, c, MarkGet(v, ch, ReadChallenge(w, ch).value));
    }
  }

  lemma AddsMarkGet(cfg: Config, w: World, hid: Id, c: Choice, v: Visit, ch: Id, r: ChallengeRecord)
    requires hid in w.handlers && w.handlers[hid] == MarkGet(v, ch, r)
    ensures StepAdds(w, StepMarkGet(w, hid, v, ch, r), hid, c)
  {
    hide StepAdds;
    if ReadChallenge(w, ch).None? {
      AddsGoto(w, hid, c, IssueCode(v, ch, r));
    } else {
      AddsGoto(w, hid, c, MarkTtl(v, ch, r, ReadChallenge(w, ch).value.(used := true)));
    }
  }

  lemma AddsMarkTtl(cfg: Config, w: World, hid: Id, c: Choice, v: Visit, ch: Id, r: ChallengeRecord, stored: ChallengeRecord)
    requires hid in w.handlers && w.handlers[hid] == MarkTtl(v, ch, r, stored)
    ensures StepAdds(w, StepMarkTtl(w, hid, v, ch, r, stored), hid, c)
  {
    hide StepAdds;
    var ttl := TtlReply(w.db, ChallengeKey(ch), w.now);
    AddsGoto(w, hid, c, if ttl <= 0 then IssueCode(v, ch, r) else MarkSave(v, ch, r, stored, ttl));
  }

  lemma NotesMarkSave(cfg: Config, w: World, hid: Id, c: Choice, v: Visit, ch: Id, r: ChallengeRecord, stored: ChallengeRecord, ttl: int)
    requires hid in w.handlers && w.handlers[hid] == MarkSave(v, ch, r, stored, ttl)
    ensures Notes(w, StepMarkSave(w, hid, v, ch, r, stored, ttl), hid, c)
  {
    hide Only, Names, RowsKept;
    Unchanged(w.hist, w.rows);
  }

  lemma AddsMarkSave(cfg: Config, w: World, hid: Id, c: Choice, v: Visit, ch: Id, r: ChallengeRecord, stored: ChallengeRecord, ttl: int)
    requires hid in w.handlers && w.handlers[hid] == MarkSave(v, ch, r, stored, ttl)
    ensures StepAdds(w, StepMarkSave(w, hid, v, ch, r, stored, ttl), hid, c)
  {
    hide Notes, Treats;
    NotesMarkSave(cfg, w, hid, c, v, ch, r, stored, ttl);
    TreatsQuietly(w, StepMarkSave(w, hid, v, ch, r, stored, ttl), w.handlers[hid], IssueCode(v, ch, r), c.draw);
  }

  lemma AddsIssueCode(cfg: Config, w: World, hid: Id, c: Choice, v: Visit, ch: Id, r: ChallengeRecord)
    requires hid in w.handlers && w.handlers[hid] == IssueCode(v, ch, r)
    ensures StepAdds(w, StepIssueCode(cfg, w, hid, v, ch, r, c), hid, c)
  {
    hide StepAdds;
    if r.kisUserId.None? || r.authIdentityId.None? {
      AddsGoto(w, hid, c, Finished);
    } else {
      var p := PayloadFor(v, r);
      AddsCode(w, hid, c, CodeInfo(p, v.sid, ch, hid, Index(w)), CodeValue(p), cfg.authCodeTtlSeconds, v.sid);
    }
  }

  lemma AddsExchangeConsume(cfg: Config, w: World, hid: Id, c: Choice, code: Id, clientId: string, redirectUri: string)
    requires hid in w.handlers && w.handlers[hid] == ExchangeConsume(code, clientId, redirectUri)
    ensures StepAdds(w, StepExchangeConsume(w, hid, code, clientId, redirectUri), hid, c)
  {
    hide StepAdds;
    if clientId == "" || redirectUri == "" {
      AddsGoto(w, hid, c, Finished);
    } else if !Live(w.db, CodeKey(code), w.now) || !w.db[CodeKey(code)].value.CodeValue? {
      AddsGoto(w, hid, c, Finished);
    } else {
      var p := w.db[CodeKey(code)].value.code;
      var h := if p.clientId != clientId || p.redirectUri != redirectUri then Finished else ExchangeFind(code, p);
      AddsRedeemed(w, hid, c, code, h);
    }
  }

  lemma AddsExchangeFind(cfg: Config, w: World, hid: Id, c: Choice, code: Id, p: AuthorizationCodePayload)
    requires hid in w.handlers && w.handlers[hid] == ExchangeFind(code, p)
    ensures StepAdds(w, StepExchangeFind(w, hid, code, p), hid, c)
  {
    hide StepAdds;
    if p.authIdentityId !in w.rows {
      AddsGoto(w, hid, c, Finished);
    } else if w.rows[p.authIdentityId].status != Active || w.rows[p.authIdentityId].user != p.kisUserId {
      AddsGoto(w, hid, c, Finished);
    } else {
      var row := w.rows[p.authIdentityId];
      AddsGoto(w, hid, c, ExchangeSign(code, p, row.email, row.emailVerified, Index(w)));
    }
  }

  lemma NotesExchangeSign(cfg: Config, w: World, hid: Id, c: Choice, code: Id, p: AuthorizationCodePayload,
                          email: Option<string>, emailVerified: bool, foundAt: nat)
    requires hid in w.handlers && w.handlers[hid] == ExchangeSign(code, p, email, emailVerified, foundAt)
    ensures Notes(w, StepExchangeSign(w, hid, code, p, email, emailVerified, foundAt), hid, c)
  {
    hide Only, Names, RowsKept;
    Unchanged(w.hist, w.rows);
  }

  lemma AddsExchangeSign(cfg: Config, w: World, hid: Id, c: Choice, code: Id, p: AuthorizationCodePayload,
                         email: Option<string>, emailVerified: bool, foundAt: nat)
    requires hid in w.handlers && w.handlers[hid] == ExchangeSign(code, p, email, emailVerified, foundAt)
    ensures StepAdds(w, StepExchangeSign(w, hid, code, p, email, emailVerified, foundAt), hid, c)
  {
    hide Notes, Treats;
    NotesExchangeSign(cfg, w, hid, c, code, p, email, emailVerified, foundAt);
    TreatsQuietly(w, StepExchangeSign(w, hid, code, p, email, emailVerified, foundAt), w.handlers[hid], Finished, c.draw);
  }

  lemma AddsTicketConsume(cfg: Config, w: World, hid: Id, c: Choice, code: Id, clientId: string, redirectUri: string)
    requires hid in w.handlers && w.handlers[hid] == TicketConsume(code, clientId, redirectUri)
    ensures StepAdds(w, StepTicketConsume(w, hid, code, clientId, redirectUri), hid, c)
  {
    hide StepAdds;
    if clientId == "" || redirectUri == "" {
      AddsGoto(w, hid, c, Finished);
    } else if !Live(w.db, TicketKey(code), w.now) || !w.db[TicketKey(code)].value.TicketValue? {
      AddsGoto(w, hid, c, Finished);
    } else {
      var p := w.db[TicketKey(code)].value.ticket;
      var h := if p.clientId != clientId || p.redirectUri != redirectUri then Finished else TicketSign(code, p);
      AddsRedeemedTicket(w, hid, c, code, h);
    }
  }

  lemma NotesTicketSign(cfg: Config, w: World, hid: Id, c: Choice, code: Id, p: RegistrationTicketPayload)
    requires hid in w.handlers && w.handlers[hid] == TicketSign(code, p)
    ensures Notes(w, StepTicketSign(w, hid, code, p), hid, c)
  {
    hide Only, Names, RowsKept;
    Unchanged(w.hist, w.rows);
  }

  lemma AddsTicketSign(cfg: Config, w: World, hid: Id, c: Choice, code: Id, p: RegistrationTicketPayload)
    requires hid in w.handlers && w.handlers[hid] == TicketSign(code, p)
    ensures StepAdds(w, StepTicketSign(w, hid, code, p), hid, c)
  {
    hide Notes, Treats;
    NotesTicketSign(cfg, w, hid, c, code, p);
    TreatsQuietly(w, StepTicketSign(w, hid, code, p), w.handlers[hid], Finished, c.draw);
  }

  lemma ResumeAdds(cfg: Config, w: World, hid: Id, c: Choice)
    requires hid in w.handlers && !w.handlers[hid].Finished? && Minds(w.handlers[hid]) && c.draw !in w.rows
    ensures StepAdds(w, StepHandler(cfg, w, hid, c), hid, c)
  {
    hide StepAdds, StepAuthorizeLookup, StepAuthorizeCheck, StepAuthorizeClaim, StepAuthorizeSave, StepStartGet, StepStartResolve,
         StepStartTtl, StepStartSave, StepCallbackGet, StepCallbackResolve, StepCallbackVerify, StepCloseAndEnd,
         StepFindIdentity, StepLinkSelect, StepLinkUpdate, StepLinkInsert, StepLinkClose, StepRegisterClose,
         StepRegisterIssue, StepTouch, StepCreateChallenge, StepReturnClose, StepConfirmGet, StepMarkGet, StepMarkTtl,
         StepMarkSave, StepIssueCode, StepExchangeConsume, StepExchangeFind, StepExchangeSign, StepTicketConsume,
         StepTicketSign;
    match w.handlers[hid]
    case AuthorizeLookup(q) => AddsAuthorizeLookup(cfg, w, hid, c, q);
    case AuthorizeCheck(q) => AddsAuthorizeCheck(cfg, w, hid, c, q);
    case AuthorizeClaim(q, t, readAt) => AddsAuthorizeClaim(cfg, w, hid, c, q, t, readAt);
    case AuthorizeSave(q, linkUser) => AddsAuthorizeSave(cfg, w, hid, c, q, linkUser);
    case StartGet(route, sid) => AddsStartGet(cfg, w, hid, c, route, sid);
    case StartResolve(sid, s) => AddsStartResolve(cfg, w, hid, c, sid, s);
    case StartTtl(sid, s) => AddsStartTtl(cfg, w, hid, c, sid, s);
    case StartSave(sid, s, ttl) => AddsStartSave(cfg, w, hid, c, sid, s, ttl);
    case CallbackGet(route, sid, cb) => AddsCallbackGet(cfg, w, hid, c, route, sid, cb);
    case CallbackResolve(route, sid, s) => AddsCallbackResolve(cfg, w, hid, c, route, sid, s);
    case CallbackVerify(route, sid, s) => AddsCallbackVerify(cfg, w, hid, c, route, sid, s);
    case CloseAndEnd(sid, redirect) => AddsCloseAndEnd(cfg, w, hid, c, sid, redirect);
    case FindIdentity(v) => AddsFindIdentity(cfg, w, hid, c, v);
    case LinkSelect(src, a) => AddsLinkSelect(cfg, w, hid, c, src, a);
    case LinkUpdate(src, a, id) => AddsLinkUpdate(cfg, w, hid, c, src, a, id);
    case LinkInsert(src, a) => AddsLinkInsert(cfg, w, hid, c, src, a);
    case LinkClose(v, r) => AddsLinkClose(cfg, w, hid, c, v, r);
    case RegisterClose(v, known) => AddsRegisterClose(cfg, w, hid, c, v, known);
    case RegisterIssue(v) => AddsRegisterIssue(cfg, w, hid, c, v);
    case Touch(v, row, user) => AddsTouch(cfg, w, hid, c, v, row, user);
    case CreateChallenge(v, r) => AddsCreateChallenge(cfg, w, hid, c, v, r);
    case ReturnClose(v, ch) => AddsReturnClose(cfg, w, hid, c, v, ch);
    case ConfirmGet(v, ch) => AddsConfirmGet(cfg, w, hid, c, v, ch);
    case MarkGet(v, ch, r) => AddsMarkGet(cfg, w, hid, c, v, ch, r);
    case MarkTtl(v, ch, r, stored) => AddsMarkTtl(cfg, w, hid, c, v, ch, r, stored);
    case MarkSave(v, ch, r, stored, ttl) => AddsMarkSave(cfg, w, hid, c, v, ch, r, stored, ttl);
    case IssueCode(v, ch, r) => AddsIssueCode(cfg, w, hid, c, v, ch, r);
    case ExchangeConsume(code, clientId, redirectUri) => AddsExchangeConsume(cfg, w, hid, c, code, clientId, redirectUri);
    case ExchangeFind(code, p) => AddsExchangeFind(cfg, w, hid, c, code, p);
    case ExchangeSign(code, p, email, emailVerified, foundAt) => AddsExchangeSign(cfg, w, hid, c, code, p, email, emailVerified, foundAt);
    case TicketConsume(code, clientId, redirectUri) => AddsTicketConsume(cfg, w, hid, c, code, clientId, redirectUri);
    case TicketSign(code, p) => AddsTicketSign(cfg, w, hid, c, code, p);
  }
}
