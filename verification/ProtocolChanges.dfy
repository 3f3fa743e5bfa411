/** The single changes a step is made of, each shown to keep the core invariant:
    recording one event, storing or deleting one key, changing one row, moving one handler. */
module ProtocolChanges {
  import opened Wrappers
  import opened Records
  import opened RedisKeyspace
  import opened IdentityTable
  import opened TenantKey
  import opened Protocol
  import opened ProtocolInvariant

  // ---------------------------------------------------------------- growth
  // What is known about events, entries and handlers survives a longer history and later rows.

  ghost predicate HistGrows(h: History, h': History) {
    && h.steps <= h'.steps
    && Extends(h.approvals, h'.approvals) && Extends(h.claims, h'.claims)
    && Extends(h.sessions, h'.sessions) && Extends(h.verifiers, h'.verifiers)
    && Extends(h.logins, h'.logins) && Extends(h.uses, h'.uses)
    && Extends(h.challenges, h'.challenges) && Extends(h.codes, h'.codes)
    && Extends(h.tickets, h'.tickets) && Extends(h.redeemed, h'.redeemed)
    && Extends(h.redeemedTickets, h'.redeemedTickets)
  }

  ghost predicate Grows(w: World, w': World) {
    HistGrows(w.hist, w'.hist) && Keeps(w.rows, w'.rows) && w.now <= w'.now
  }

  lemma HandlerGrows(cfg: Config, h: History, h': History, rows: Table, rows': Table, now: int, now': int, hid: Id, handler: Handler)
    requires HandlerOK(cfg, h, rows, now, hid, handler)
    requires HistGrows(h, h') && Keeps(rows, rows') && now <= now'
    ensures HandlerOK(cfg, h', rows', now', hid, handler)
  {
  }

  lemma HandlersGrow(cfg: Config, handlers: map<Id, Handler>, h: History, h': History, rows: Table, rows': Table, now: int, now': int)
    requires HandlersOK(cfg, handlers, h, rows, now)
    requires HistGrows(h, h') && Keeps(rows, rows') && now <= now'
    ensures HandlersOK(cfg, handlers, h', rows', now')
  {
    hide HandlerOK, HistGrows, Keeps;
    forall hid | hid in handlers ensures HandlerOK(cfg, h', rows', now', hid, handlers[hid]) {
      HandlerGrows(cfg, h, h', rows, rows', now, now', hid, handlers[hid]);
    }
  }

  lemma EntriesGrow(db: Keyspace, h: History, h': History)
    requires EntriesOK(db, h) && HistGrows(h, h')
    ensures EntriesOK(db, h')
  {
  }

  lemma SessionsGrow(sessions: map<Id, SessionRecord>, approvals: map<Id, Approval>, claims: map<Id, TicketClaim>,
                     approvals': map<Id, Approval>, claims': map<Id, TicketClaim>, steps: nat, steps': nat)
    requires SessionsOK(sessions, approvals, claims, steps) && steps <= steps' && Extends(approvals, approvals') && Extends(claims, claims')
    ensures SessionsOK(sessions, approvals', claims', steps')
  {
  }

  lemma LoginsGrow(logins: map<Id, Login>, sessions: map<Id, SessionRecord>, verifiers: map<Id, Id>,
                   sessions': map<Id, SessionRecord>, verifiers': map<Id, Id>, steps: nat, steps': nat)
    requires LoginsOK(logins, sessions, verifiers, steps) && steps <= steps' && Extends(sessions, sessions') && Extends(verifiers, verifiers')
    ensures LoginsOK(logins, sessions', verifiers', steps')
  {
  }

  lemma ClaimsGrow(claims: map<Id, TicketClaim>, approvals: map<Id, Approval>, approvals': map<Id, Approval>, steps: nat, steps': nat)
    requires ClaimsOK(claims, approvals, steps) && steps <= steps' && Extends(approvals, approvals')
    ensures ClaimsOK(claims, approvals', steps')
  {
  }

  lemma UsesGrow(uses: map<Id, Id>, logins: map<Id, Login>, logins': map<Id, Login>, rows: Table, rows': Table)
    requires UsesOK(uses, logins, rows) && Extends(logins, logins') && Keeps(rows, rows')
    ensures UsesOK(uses, logins', rows')
  {
  }

  lemma CodesGrow(codes: map<Id, CodeInfo>, h: History, h': History)
    requires CodesOK(codes, h.challenges, h.sessions, h.steps) && h.steps <= h'.steps
    requires Extends(h.challenges, h'.challenges) && Extends(h.sessions, h'.sessions)
    ensures CodesOK(codes, h'.challenges, h'.sessions, h'.steps)
  {
  }

  lemma TicketsGrow(tickets: map<Id, TicketInfo>, h: History, h': History)
    requires TicketsOK(tickets, h.logins, h.sessions, h.steps) && h.steps <= h'.steps
    requires Extends(h.logins, h'.logins) && Extends(h.sessions, h'.sessions)
    ensures TicketsOK(tickets, h'.logins, h'.sessions, h'.steps)
  {
  }

  lemma LinksGrow(links: map<Id, LinkOutcome>, rows: Table, rows': Table)
    requires LinksOK(links, rows) && Keeps(rows, rows')
    ensures LinksOK(links, rows')
  {
    forall k | k in links ensures LinkOK(links[k], rows') {
      var o := links[k];
      if o.result.AlreadyLinked? {
        var i :| i in rows && (HasKey(rows[i], o.args.provider, o.args.subject) || rows[i].user == o.args.user);
        assert i in rows';
      }
    }
  }

  lemma OriginsGrow(origins: map<Id, RowOrigin>, h: History, h': History, rows: Table, rows': Table)
    requires OriginsOK(origins, h.logins, h.sessions, rows) && Keeps(rows, rows')
    requires Extends(h.logins, h'.logins) && Extends(h.sessions, h'.sessions)
    ensures OriginsOK(origins, h'.logins, h'.sessions, rows')
  {
  }

  lemma ChallengesGrow(cfg: Config, challenges: map<Id, ChallengeInfo>, h: History, h': History, rows: Table, rows': Table)
    requires ChallengesOK(cfg, challenges, h.logins, h.sessions, h.uses, rows, h.steps) && h.steps <= h'.steps && Keeps(rows, rows')
    requires Extends(h.logins, h'.logins) && Extends(h.sessions, h'.sessions) && Extends(h.uses, h'.uses)
    ensures ChallengesOK(cfg, challenges, h'.logins, h'.sessions, h'.uses, rows', h'.steps)
  {
  }

  lemma TokensGrow(tokens: seq<Token>, h: History, h': History)
    requires TokensOK(tokens, h.codes, h.redeemed, h.tickets, h.redeemedTickets)
    requires Extends(h.codes, h'.codes) && Extends(h.redeemed, h'.redeemed)
    requires Extends(h.tickets, h'.tickets) && Extends(h.redeemedTickets, h'.redeemedTickets)
    ensures TokensOK(tokens, h'.codes, h'.redeemed, h'.tickets, h'.redeemedTickets)
  {
  }

  /** All that was true of the events of `w` is true of them in `w'`. */
  ghost predicate Carried(cfg: Config, w: World, w': World) {
    var h := w.hist;
    var h' := w'.hist;
    && cfg.Valid()
    && ApprovalsOK(h.approvals, h'.steps)
    && ClaimsOK(h.claims, h'.approvals, h'.steps)
    && SessionsOK(h.sessions, h'.approvals, h'.claims, h'.steps)
    && LoginsOK(h.logins, h'.sessions, h'.verifiers, h'.steps)
    && UsesOK(h.uses, h'.logins, w'.rows)
    && LinksOK(h.links, w'.rows)
    && OriginsOK(h.origins, h'.logins, h'.sessions, w'.rows)
    && ChallengesOK(cfg, h.challenges, h'.logins, h'.sessions, h'.uses, w'.rows, h'.steps)
    && CodesOK(h.codes, h'.challenges, h'.sessions, h'.steps)
    && TicketsOK(h.tickets, h'.logins, h'.sessions, h'.steps)
    && TokensOK(h.tokens, h'.codes, h'.redeemed, h'.tickets, h'.redeemedTickets)
    && EntriesOK(w.db, h')
    && HandlersOK(cfg, w.handlers, h', w'.rows, w'.now)
  }

  lemma Carry(cfg: Config, w: World, w': World)
    requires Core(cfg, w) && Grows(w, w')
    ensures Carried(cfg, w, w')
  {
    hide ClaimsOK, SessionsOK, LoginsOK, UsesOK, LinksOK, CodesOK, TicketsOK, OriginsOK, ChallengesOK, TokensOK,
         EntriesOK, HandlersOK, Spent, ClaimsHeld, ClaimsApart, TableOK, DrawnOK;
    var h := w.hist;
    var h' := w'.hist;
    SessionsGrow(h.sessions, h.approvals, h.claims, h'.approvals, h'.claims, h.steps, h'.steps);
    LoginsGrow(h.logins, h.sessions, h.verifiers, h'.sessions, h'.verifiers, h.steps, h'.steps);
    ClaimsGrow(h.claims, h.approvals, h'.approvals, h.steps, h'.steps);
    UsesGrow(h.uses, h.logins, h'.logins, w.rows, w'.rows);
    CodesGrow(h.codes, h, h');
    TicketsGrow(h.tickets, h, h');
    LinksGrow(h.links, w.rows, w'.rows);
    OriginsGrow(h.origins, h, h', w.rows, w'.rows);
    ChallengesGrow(cfg, h.challenges, h, h', w.rows, w'.rows);
    TokensGrow(h.tokens, h, h');
    EntriesGrow(w.db, h, h');
    HandlersGrow(cfg, w.handlers, h, h', w.rows, w'.rows, w.now, w'.now);
  }

  // ---------------------------------------------------------------- clock, counters, handlers

  lemma KeepMove(cfg: Config, w: World, hid: Id, handler: Handler)
    requires Core(cfg, w) && HandlerOK(cfg, w.hist, w.rows, w.now, hid, handler)
    ensures Core(cfg, Goto(w, hid, handler))
  {
    hide ApprovalsOK, ClaimsOK, SessionsOK, LoginsOK, UsesOK, LinksOK, OriginsOK, ChallengesOK, CodesOK, TicketsOK,
         TokensOK, Spent, ClaimsHeld, ClaimsApart, TableOK, DrawnOK, EntriesOK, HandlerOK;
  }

  lemma KeepTick(cfg: Config, w: World)
    requires Core(cfg, w)
    ensures Core(cfg, Ticked(w))
  {
    hide ClaimsOK, SessionsOK, LoginsOK, UsesOK, LinksOK, OriginsOK, ChallengesOK, CodesOK, TicketsOK, TokensOK,
         Spent, ClaimsHeld, ClaimsApart, TableOK, DrawnOK, EntriesOK, HandlersOK, SlugOK;
    Carry(cfg, w, Ticked(w));
  }

  lemma KeepDrawn(cfg: Config, w: World, c: Choice)
    requires Core(cfg, w)
    ensures Core(cfg, Drawn(w, c))
  {
    hide ApprovalsOK, ClaimsOK, SessionsOK, LoginsOK, UsesOK, LinksOK, OriginsOK, ChallengesOK, CodesOK, TicketsOK,
         TokensOK, Spent, ClaimsHeld, ClaimsApart, TableOK, EntriesOK, HandlersOK;
    Carry(cfg, w, Drawn(w, c));
  }

  // ---------------------------------------------------------------- recording events

  lemma KeepApproval(cfg: Config, w: World, hid: Id, a: Approval)
    requires Core(cfg, w)
    requires hid !in w.hist.approvals
    requires SlugOK(a.q) && a.q.clientState != "" && a.at < w.hist.steps
    ensures Core(cfg, WithApproval(w, hid, a))
  {
    hide ClaimsOK, SessionsOK, LoginsOK, UsesOK, LinksOK, OriginsOK, ChallengesOK, CodesOK, TicketsOK, TokensOK,
         Spent, ClaimsHeld, ClaimsApart, TableOK, DrawnOK, EntriesOK, HandlersOK, SlugOK;
    Carry(cfg, w, WithApproval(w, hid, a));
  }

  lemma KeepClaim(cfg: Config, w: World, hid: Id, c: TicketClaim)
    requires Core(cfg, w)
    requires hid !in w.hist.claims && c.at < w.hist.steps
    requires hid in w.hist.approvals && w.hist.approvals[hid].q.ticket == Some(c.ticket) && w.hist.approvals[hid].at < c.at
    requires NonceHeld(w.db, c.ticket)
    requires forall k :: k in w.hist.claims && w.hist.claims[k].ticket.nonce == c.ticket.nonce ==>
                           c.setAt >= w.hist.claims[k].ticket.exp * 1000
    ensures Core(cfg, WithClaim(w, hid, c))
  {
    hide ApprovalsOK, SessionsOK, LoginsOK, UsesOK, LinksOK, OriginsOK, ChallengesOK, CodesOK, TicketsOK, TokensOK,
         Spent, TableOK, DrawnOK, EntriesOK, HandlersOK;
    Carry(cfg, w, WithClaim(w, hid, c));
  }

  lemma KeepSession(cfg: Config, w: World, sid: Id, r: SessionRecord)
    requires Core(cfg, w)
    requires sid !in w.hist.sessions && sid in w.hist.drawn && r.at < w.hist.steps
    requires SessionOK(r, w.hist.approvals, w.hist.claims)
    ensures Core(cfg, WithSession(w, sid, r))
  {
    hide ApprovalsOK, ClaimsOK, LoginsOK, UsesOK, LinksOK, OriginsOK, ChallengesOK, CodesOK, TicketsOK, TokensOK,
         Spent, ClaimsHeld, ClaimsApart, TableOK, EntriesOK, HandlersOK, SessionOK;
    Carry(cfg, w, WithSession(w, sid, r));
  }

  lemma KeepVerifier(cfg: Config, w: World, v: Id, sid: Id)
    requires Core(cfg, w)
    requires v !in w.hist.verifiers && v in w.hist.drawn
    ensures Core(cfg, WithVerifier(w, v, sid))
  {
    hide ApprovalsOK, ClaimsOK, SessionsOK, LoginsOK, UsesOK, LinksOK, OriginsOK, ChallengesOK, CodesOK, TicketsOK,
         TokensOK, Spent, ClaimsHeld, ClaimsApart, TableOK, EntriesOK, HandlersOK;
    Carry(cfg, w, WithVerifier(w, v, sid));
  }

  lemma KeepLogin(cfg: Config, w: World, hid: Id, l: Login)
    requires Core(cfg, w)
    requires hid !in w.hist.logins && l.at < w.hist.steps
    requires LoginOK(l, w.hist.sessions, w.hist.verifiers)
    ensures Core(cfg, WithLogin(w, hid, l))
  {
    hide ApprovalsOK, ClaimsOK, SessionsOK, UsesOK, LinksOK, OriginsOK, ChallengesOK, CodesOK, TicketsOK, TokensOK,
         Spent, ClaimsHeld, ClaimsApart, TableOK, DrawnOK, EntriesOK, HandlersOK, LoginOK;
    Carry(cfg, w, WithLogin(w, hid, l));
  }

  lemma KeepUse(cfg: Config, w: World, hid: Id, row: Id)
    requires Core(cfg, w)
    requires hid !in w.hist.uses
    requires hid in w.hist.logins && RowOfLogin(w.rows, row, w.hist.logins[hid])
    ensures Core(cfg, WithUse(w, hid, row))
  {
    hide ApprovalsOK, ClaimsOK, SessionsOK, LoginsOK, LinksOK, OriginsOK, ChallengesOK, CodesOK, TicketsOK,
         TokensOK, Spent, ClaimsHeld, ClaimsApart, TableOK, DrawnOK, EntriesOK, HandlersOK, RowOfLogin;
    Carry(cfg, w, WithUse(w, hid, row));
  }

  lemma KeepLink(cfg: Config, w: World, hid: Id, o: LinkOutcome)
    requires Core(cfg, w)
    requires hid !in w.hist.links && LinkOK(o, w.rows)
    ensures Core(cfg, WithLink(w, hid, o))
  {
    hide ApprovalsOK, ClaimsOK, SessionsOK, LoginsOK, UsesOK, OriginsOK, ChallengesOK, CodesOK, TicketsOK,
         TokensOK, Spent, ClaimsHeld, ClaimsApart, TableOK, DrawnOK, EntriesOK, HandlersOK, LinkOK;
    Carry(cfg, w, WithLink(w, hid, o));
  }

  lemma KeepChallenge(cfg: Config, w: World, ch: Id, i: ChallengeInfo)
    requires Core(cfg, w)
    requires ch !in w.hist.challenges && ch in w.hist.drawn && i.at < w.hist.steps
    requires ChallengeOK(cfg, i, w.hist.logins, w.hist.sessions, w.hist.uses, w.rows)
    ensures Core(cfg, WithChallenge(w, ch, i))
  {
    hide ApprovalsOK, ClaimsOK, SessionsOK, LoginsOK, UsesOK, LinksOK, OriginsOK, CodesOK, TicketsOK, TokensOK,
         Spent, ClaimsHeld, ClaimsApart, TableOK, EntriesOK, HandlersOK, ChallengeOK;
    Carry(cfg, w, WithChallenge(w, ch, i));
  }

  lemma KeepCode(cfg: Config, w: World, code: Id, i: CodeInfo)
    requires Core(cfg, w)
    requires code !in w.hist.codes && code !in w.hist.tickets && code in w.hist.drawn && i.at < w.hist.steps
    requires CodeOK(i, w.hist.challenges, w.hist.sessions)
    ensures Core(cfg, WithCode(w, code, i))
  {
    hide ApprovalsOK, ClaimsOK, SessionsOK, LoginsOK, UsesOK, LinksOK, OriginsOK, ChallengesOK, TicketsOK,
         TokensOK, ClaimsHeld, ClaimsApart, TableOK, EntriesOK, HandlersOK, CodeOK;
    Carry(cfg, w, WithCode(w, code, i));
  }

  lemma KeepTicket(cfg: Config, w: World, t: Id, i: TicketInfo)
    requires Core(cfg, w)
    requires t !in w.hist.tickets && t !in w.hist.codes && t in w.hist.drawn && i.at < w.hist.steps
    requires TicketOK(i, w.hist.logins, w.hist.sessions)
    ensures Core(cfg, WithTicket(w, t, i))
  {
    hide ApprovalsOK, ClaimsOK, SessionsOK, LoginsOK, UsesOK, LinksOK, OriginsOK, ChallengesOK, CodesOK, TokensOK,
         ClaimsHeld, ClaimsApart, TableOK, EntriesOK, HandlersOK, TicketOK;
    Carry(cfg, w, WithTicket(w, t, i));
  }

  lemma KeepRedeemed(cfg: Config, w: World, code: Id, hid: Id)
    requires Core(cfg, w)
    requires code !in w.hist.redeemed && code in w.hist.codes && CodeKey(code) !in w.db
    ensures Core(cfg, WithRedeemed(w, code, hid))
  {
    hide ApprovalsOK, ClaimsOK, SessionsOK, LoginsOK, UsesOK, LinksOK, OriginsOK, ChallengesOK, CodesOK, TicketsOK,
         TokensOK, ClaimsHeld, ClaimsApart, TableOK, DrawnOK, EntriesOK, HandlersOK;
    Carry(cfg, w, WithRedeemed(w, code, hid));
  }

  lemma KeepRedeemedTicket(cfg: Config, w: World, t: Id, hid: Id)
    requires Core(cfg, w)
    requires t !in w.hist.redeemedTickets && t in w.hist.tickets && TicketKey(t) !in w.db
    ensures Core(cfg, WithRedeemedTicket(w, t, hid))
  {
    hide ApprovalsOK, ClaimsOK, SessionsOK, LoginsOK, UsesOK, LinksOK, OriginsOK, ChallengesOK, CodesOK, TicketsOK,
         TokensOK, ClaimsHeld, ClaimsApart, TableOK, DrawnOK, EntriesOK, HandlersOK;
    Carry(cfg, w, WithRedeemedTicket(w, t, hid));
  }

  lemma KeepToken(cfg: Config, w: World, t: Token)
    requires Core(cfg, w)
    requires TokenOK(t, w.hist.codes, w.hist.redeemed, w.hist.tickets, w.hist.redeemedTickets)
    ensures Core(cfg, WithToken(w, t))
  {
    hide ApprovalsOK, ClaimsOK, SessionsOK, LoginsOK, UsesOK, LinksOK, OriginsOK, ChallengesOK, CodesOK, TicketsOK,
         Spent, ClaimsHeld, ClaimsApart, TableOK, DrawnOK, EntriesOK, HandlersOK, TokenOK;
    Carry(cfg, w, WithToken(w, t));
  }

  lemma KeepOutput(cfg: Config, w: World, hid: Id, sid: Id, o: Output)
    requires Core(cfg, w)
    ensures Core(cfg, EndWith(w, hid, sid, o))
  {
    hide ApprovalsOK, ClaimsOK, SessionsOK, LoginsOK, UsesOK, LinksOK, OriginsOK, ChallengesOK, CodesOK, TicketsOK,
         TokensOK, Spent, ClaimsHeld, ClaimsApart, TableOK, DrawnOK, EntriesOK, HandlersOK;
    var w' := w.(hist := w.hist.(outputs := w.hist.outputs + [(sid, o)]));
    Carry(cfg, w, w');
    KeepMove(cfg, w', hid, Finished);
  }

  // ---------------------------------------------------------------- Redis

  /** Store under a key that is neither spent nor a claimed nonce. */
  lemma KeepStore(cfg: Config, w: World, k: Key, v: Value, ttlSeconds: int)
    requires Core(cfg, w) && EntryOK(w.hist, k, v)
    requires k.SessionKey? || k.ChallengeKey? || (k.CodeKey? && k.codeId !in w.hist.redeemed)
             || (k.TicketKey? && k.ticketId !in w.hist.redeemedTickets)
    ensures Core(cfg, Store(w, k, v, ttlSeconds))
  {
    hide ApprovalsOK, ClaimsOK, SessionsOK, LoginsOK, UsesOK, LinksOK, OriginsOK, ChallengesOK, CodesOK, TicketsOK,
         TokensOK, ClaimsApart, TableOK, DrawnOK, HandlersOK, EntryOK;
  }

  /** Claim a link-ticket nonce whose key has expired or was never set. */
  lemma KeepNonce(cfg: Config, w: World, nonce: string, ttlSeconds: int)
    requires Core(cfg, w) && !Live(w.db, LinkNonceKey(nonce), w.now) && ttlSeconds >= 1
    ensures Core(cfg, Store(w, LinkNonceKey(nonce), Claimed, ttlSeconds))
  {
    hide ApprovalsOK, ClaimsOK, SessionsOK, LoginsOK, UsesOK, LinksOK, OriginsOK, ChallengesOK, CodesOK, TicketsOK,
         TokensOK, ClaimsApart, TableOK, DrawnOK, HandlersOK;
  }

  lemma KeepDelete(cfg: Config, w: World, k: Key)
    requires Core(cfg, w) && !k.LinkNonceKey?
    ensures Core(cfg, w.(db := Del(w.db, k)))
  {
    hide ApprovalsOK, ClaimsOK, SessionsOK, LoginsOK, UsesOK, LinksOK, OriginsOK, ChallengesOK, CodesOK, TicketsOK,
         TokensOK, ClaimsApart, TableOK, DrawnOK, HandlersOK, EntryOK;
  }

  lemma KeepClose(cfg: Config, w: World, sid: Id)
    requires Core(cfg, w) && sid in w.hist.sessions
    ensures Core(cfg, Close(w, sid))
  {
    hide ApprovalsOK, ClaimsOK, SessionsOK, LoginsOK, UsesOK, LinksOK, OriginsOK, ChallengesOK, CodesOK, TicketsOK,
         TokensOK, Spent, ClaimsHeld, ClaimsApart, TableOK, DrawnOK, EntriesOK, HandlersOK;
    var w' := w.(hist := w.hist.(closed := w.hist.closed + {sid}));
    Carry(cfg, w, w');
    KeepDelete(cfg, w', SessionKey(sid));
  }

  // ---------------------------------------------------------------- rows

  lemma RowTable(rows: Table, origins: map<Id, RowOrigin>, id: Id, r: Row)
    requires TableOK(rows, origins) && id in rows
    requires r.provider == rows[id].provider && r.subject == rows[id].subject && r.user == rows[id].user
    ensures TableOK(rows[id := r], origins) && Keeps(rows, rows[id := r])
  {
    assert rows[id := r].Keys == rows.Keys;
  }

  lemma KeepRow(cfg: Config, w: World, id: Id, r: Row)
    requires Core(cfg, w) && id in w.rows
    requires r.provider == w.rows[id].provider && r.subject == w.rows[id].subject && r.user == w.rows[id].user
    ensures Core(cfg, w.(rows := w.rows[id := r]))
  {
    hide Keeps;
    hide ApprovalsOK, ClaimsOK, SessionsOK, LoginsOK, UsesOK, LinksOK, OriginsOK, ChallengesOK, CodesOK, TicketsOK,
         TokensOK, Spent, ClaimsHeld, ClaimsApart, TableOK, EntriesOK, HandlersOK;
    RowTable(w.rows, w.hist.origins, id, r);
    assert w.rows[id := r].Keys == w.rows.Keys;
    Carry(cfg, w, w.(rows := w.rows[id := r]));
  }

  lemma InsertTable(rows: Table, origins: map<Id, RowOrigin>, id: Id, a: LinkArgs, o: RowOrigin)
    requires TableOK(rows, origins) && id !in rows && !Conflicts(rows, a) && a.user != ""
    ensures TableOK(Inserted(rows, id, a), origins[id := o]) && Keeps(rows, Inserted(rows, id, a))
  {
    var rows' := Inserted(rows, id, a);
    forall i, j | i in rows' && j in rows' && i != j
      ensures rows'[i].user != rows'[j].user && !HasKey(rows'[i], rows'[j].provider, rows'[j].subject)
    {
      if j == id {
        assert i in rows;
      }
    }
  }

  lemma InsertKeys(rows: Table, id: Id, a: LinkArgs)
    ensures Inserted(rows, id, a).Keys == rows.Keys + {id}
  {
  }

  lemma KeepInsert(cfg: Config, w: World, id: Id, a: LinkArgs, o: RowOrigin)
    requires Core(cfg, w) && id !in w.rows && id in w.hist.drawn && !Conflicts(w.rows, a) && a.user != ""
    requires OriginOK(id, o, w.hist.logins, w.hist.sessions, Inserted(w.rows, id, a))
    ensures Core(cfg, WithInsert(w, id, a, o))
  {
    hide Keeps, Conflicts, Inserted;
    hide ApprovalsOK, ClaimsOK, SessionsOK, LoginsOK, UsesOK, LinksOK, ChallengesOK, CodesOK, TicketsOK, TokensOK,
         Spent, ClaimsHeld, ClaimsApart, TableOK, EntriesOK, HandlersOK, OriginOK;
    InsertTable(w.rows, w.hist.origins, id, a, o);
    assert Inserted(w.rows, id, a).Keys == w.rows.Keys + {id} by {
      InsertKeys(w.rows, id, a);
    }
    Carry(cfg, w, WithInsert(w, id, a, o));
  }
}
