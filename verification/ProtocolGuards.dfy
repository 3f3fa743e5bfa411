/** What the protocol guarantees besides the tokens: challenges, link tickets, tenants, the identity
    table and the separation of the login and registration paths, over every run. */
module ProtocolGuards {
  import opened Wrappers
  import opened Records
  import opened RedisKeyspace
  import opened IdentityTable
  import opened TenantKey
  import opened Protocol
  import opened ProtocolInvariant
  import opened ProtocolChanges
  import opened ProtocolOutcomes
  import opened ProtocolPast
  import opened ProtocolRuns
  import opened ProtocolTraces
  import opened ProtocolTheorems

  // ---------------------------------------------------------------- challenge confirmation

  /** A challenge becomes at most one code, and only its creator can confirm it. */
  lemma OneCodePerChallenge(cfg: Config, run: seq<World>, acts: seq<Action>, i: nat, a: Id, b: Id)
    requires IsRun(cfg, run, acts) && i < |run|
    requires a in run[i].hist.codes && b in run[i].hist.codes && run[i].hist.codes[a].challenge == run[i].hist.codes[b].challenge
    ensures a == b
  {
    hide IsRun, Inv, Core, Past, UsedPast, CodeOK;
    RunInv(cfg, run, acts, i);
    InvCore(cfg, run[i]);
    CodeIs(cfg, run[i], a);
    CodeIs(cfg, run[i], b);
    CodeOwner(run[i].hist, a);
    CodeOwner(run[i].hist, b);
    OneCodePerOwner(cfg, run[i], a, b);
  }

  lemma CodeOwner(h: History, a: Id)
    requires a in h.codes && CodeOK(h.codes[a], h.challenges, h.sessions)
    ensures h.codes[a].challenge in h.challenges && h.challenges[h.codes[a].challenge].owner == h.codes[a].owner
  {
  }

  lemma OneCodePerOwner(cfg: Config, w: World, a: Id, b: Id)
    requires Inv(cfg, w) && a in w.hist.codes && b in w.hist.codes && w.hist.codes[a].owner == w.hist.codes[b].owner
    ensures a == b
  {
    hide Core, Past, UsedPast;
  }

  /** Any two handlers that confirm the same challenge are one. */
  lemma ChallengeIsPrivate(cfg: Config, run: seq<World>, acts: seq<Action>, i: nat, a: Id, b: Id)
    requires IsRun(cfg, run, acts) && i < |run| && a in run[i].handlers && b in run[i].handlers
    requires 7 <= Stage(run[i].handlers[a]) < 13 && 7 <= Stage(run[i].handlers[b]) < 13
    requires run[i].handlers[a].challenge == run[i].handlers[b].challenge
    ensures a == b
  {
    hide IsRun, Inv, Core;
    RunInv(cfg, run, acts, i);
    InvCore(cfg, run[i]);
    ConfirmerOwns(cfg, run[i], a);
    ConfirmerOwns(cfg, run[i], b);
  }

  lemma ConfirmerOwns(cfg: Config, w: World, hid: Id)
    requires Core(cfg, w) && hid in w.handlers && 7 <= Stage(w.handlers[hid]) < 13
    ensures w.handlers[hid].challenge in w.hist.challenges && w.hist.challenges[w.handlers[hid].challenge].owner == hid
  {
    hide Core, VisitOK;
    HandlerKnows(cfg, w, hid);
  }

  /** The confirm checks pass exactly when the challenge has not expired and the configured number
      of attempts is at least one. */
  lemma ConfirmFailsOnlyByExpiry(cfg: Config, run: seq<World>, acts: seq<Action>, i: nat, hid: Id)
    requires IsRun(cfg, run, acts) && Moves(run, acts, i, hid) && run[i].handlers[hid].ConfirmGet?
    ensures var ch := run[i].handlers[hid].challenge;
            var passes := Live(run[i].db, ChallengeKey(ch), run[i].now) && cfg.challengeMaxAttempts >= 1;
            && (passes ==> run[i + 1].handlers[hid].MarkGet?)
            && (!passes ==> run[i + 1].handlers[hid].Finished?)
  {
    hide IsRun, Core, Past, UsedPast, StepHandler, StepConfirmGet, Confirmable, Live, ReadChallenge;
    MoveIs(cfg, run, acts, i, hid);
    var w := Drawn(Ticked(run[i]), acts[i].choice);
    var ch := run[i].handlers[hid].challenge;
    ConfirmerOwns(cfg, run[i], hid);
    if Live(run[i].db, ChallengeKey(ch), run[i].now) {
      LiveIsKey(run[i].db, ChallengeKey(ch), run[i].now);
      ChallengeReadable(cfg, run[i], hid, ch);
      ReadIs(w, run[i], ch);
    } else {
      DeadRead(w, ch);
    }
    ConfirmStep(cfg, w, hid, acts[i].choice);
  }

  /** A stored challenge whose owner is still at the checks is unused and has no attempts. */
  lemma ChallengeReadable(cfg: Config, w: World, hid: Id, ch: Id)
    requires Core(cfg, w) && UsedPast(w.handlers, w.db, w.hist.challenges)
    requires hid in w.handlers && w.handlers[hid].ConfirmGet?
    requires ch in w.hist.challenges && w.hist.challenges[ch].owner == hid && ChallengeKey(ch) in w.db
    ensures w.db[ChallengeKey(ch)].value.ChallengeValue?
    ensures Confirmable(w.db[ChallengeKey(ch)].value.challenge) <==> cfg.challengeMaxAttempts >= 1
  {
    hide Core;
    ChallengeIs(cfg, w, ch);
    ChallengeEntryIs(cfg, w, ch);
    NotUsedYet(w, hid, ch);
  }

  lemma NotUsedYet(w: World, hid: Id, ch: Id)
    requires UsedPast(w.handlers, w.db, w.hist.challenges) && ch in w.hist.challenges
    requires !Reached(w.handlers, w.hist.challenges[ch].owner, 12)
    ensures !IsUsed(w.db, ch)
  {
  }

  lemma ChallengeEntryIs(cfg: Config, w: World, ch: Id)
    requires Core(cfg, w) && ChallengeKey(ch) in w.db
    ensures ch in w.hist.challenges && w.db[ChallengeKey(ch)].value.ChallengeValue?
    ensures w.db[ChallengeKey(ch)].value.challenge.(used := false) == w.hist.challenges[ch].record
  {
    hide HandlersOK;
    assert EntryOK(w.hist, ChallengeKey(ch), w.db[ChallengeKey(ch)].value);
  }

  lemma ReadIs(w: World, v: World, ch: Id)
    requires w.db == v.db && w.now == v.now && Live(v.db, ChallengeKey(ch), v.now) && v.db[ChallengeKey(ch)].value.ChallengeValue?
    ensures ReadChallenge(w, ch) == Some(v.db[ChallengeKey(ch)].value.challenge)
  {
  }

  lemma DeadRead(w: World, ch: Id)
    requires !Live(w.db, ChallengeKey(ch), w.now)
    ensures ReadChallenge(w, ch) == None
  {
  }

  lemma ConfirmStep(cfg: Config, w: World, hid: Id, c: Choice)
    requires hid in w.handlers && w.handlers[hid].ConfirmGet?
    ensures var w' := StepHandler(cfg, w, hid, c);
            var r := ReadChallenge(w, w.handlers[hid].challenge);
            hid in w'.handlers
            && if r.Some? && Confirmable(r.value) then w'.handlers[hid].MarkGet? else w'.handlers[hid].Finished?
  {
    hide Confirmable, ReadChallenge;
  }

  // ---------------------------------------------------------------- link tickets

  /** Two claims of one ticket, both before it expires, are one claim. */
  lemma TicketClaimedOnce(cfg: Config, run: seq<World>, acts: seq<Action>, i: nat, a: Id, b: Id)
    requires IsRun(cfg, run, acts) && i < |run| && a in run[i].hist.claims && b in run[i].hist.claims
    requires run[i].hist.claims[a].ticket == run[i].hist.claims[b].ticket
    requires run[i].hist.claims[a].setAt < run[i].hist.claims[a].ticket.exp * 1000
    requires run[i].hist.claims[b].setAt < run[i].hist.claims[b].ticket.exp * 1000
    ensures a == b
  {
    hide IsRun, Inv, Core;
    RunInv(cfg, run, acts, i);
    InvCore(cfg, run[i]);
    ClaimsAreApart(cfg, run[i]);
  }

  lemma ClaimsAreApart(cfg: Config, w: World)
    requires Core(cfg, w)
    ensures ClaimsApart(w.hist.claims)
  {
    hide HandlersOK, EntriesOK, TokensOK, OriginsOK, CodesOK, TicketsOK, UsesOK, LoginsOK, ChallengesOK, SessionsOK;
  }

  /** A ticket claimed in time opens at most one link session, bound to the user it names. */
  lemma TicketOpensOneSession(cfg: Config, run: seq<World>, acts: seq<Action>, i: nat, s1: Id, s2: Id)
    requires IsRun(cfg, run, acts) && i < |run|
    requires s1 in run[i].hist.sessions && run[i].hist.sessions[s1].base.purpose == "link"
    requires s2 in run[i].hist.sessions && run[i].hist.sessions[s2].base.purpose == "link"
    ensures var h := run[i].hist;
            && h.sessions[s1].creator in h.claims && h.sessions[s2].creator in h.claims
            && (var c1 := h.claims[h.sessions[s1].creator];
                var c2 := h.claims[h.sessions[s2].creator];
                && h.sessions[s1].base.linkKisUserId == NonEmpty(c1.ticket.kisUserId)
                && (c1.ticket == c2.ticket && c1.setAt < c1.ticket.exp * 1000 && c2.setAt < c2.ticket.exp * 1000 ==> s1 == s2))
  {
    hide IsRun, Inv, Core;
    RunInv(cfg, run, acts, i);
    InvCore(cfg, run[i]);
    SessionIs(cfg, run[i], s1);
    SessionIs(cfg, run[i], s2);
    var h := run[i].hist;
    var c1 := h.claims[h.sessions[s1].creator];
    var c2 := h.claims[h.sessions[s2].creator];
    if c1.ticket == c2.ticket && c1.setAt < c1.ticket.exp * 1000 && c2.setAt < c2.ticket.exp * 1000 {
      TicketClaimedOnce(cfg, run, acts, i, h.sessions[s1].creator, h.sessions[s2].creator);
      OneSessionPerCreator(cfg, run[i], s1, s2);
    }
  }

  lemma OneSessionPerCreator(cfg: Config, w: World, s1: Id, s2: Id)
    requires Inv(cfg, w) && s1 in w.hist.sessions && s2 in w.hist.sessions && w.hist.sessions[s1].creator == w.hist.sessions[s2].creator
    ensures s1 == s2
  {
    hide Core, Past, UsedPast;
  }

  /** A row a callback inserted belongs to the user of the ticket its session was opened with, and
      is keyed by the identity the provider verified for that session. */
  lemma CallbackRowsBelongToTheTicket(cfg: Config, run: seq<World>, acts: seq<Action>, i: nat, id: Id)
    requires IsRun(cfg, run, acts) && i < |run| && id in run[i].hist.origins && run[i].hist.origins[id].ByCallback?
    ensures var h := run[i].hist;
            var hid := h.origins[id].handler;
            && hid in h.logins && h.logins[hid].sid in h.sessions && id in run[i].rows
            && (var l := h.logins[hid];
                var s := h.sessions[l.sid];
                && s.base.purpose == "link" && s.creator in h.claims && s.creator in h.approvals
                && h.claims[s.creator].at < s.at < l.at
                && run[i].rows[id].user == h.claims[s.creator].ticket.kisUserId
                && Stands(l, run[i].rows[id].provider, run[i].rows[id].subject))
  {
    hide IsRun, Inv, Core;
    RunInv(cfg, run, acts, i);
    InvCore(cfg, run[i]);
    OriginIs(cfg, run[i], id);
    var h := run[i].hist;
    SessionIs(cfg, run[i], h.logins[h.origins[id].handler].sid);
    LoginIs(cfg, run[i], h.origins[id].handler);
  }

  lemma OriginIs(cfg: Config, w: World, id: Id)
    requires Core(cfg, w) && id in w.hist.origins
    ensures OriginOK(id, w.hist.origins[id], w.hist.logins, w.hist.sessions, w.rows)
  {
    hide HandlersOK, EntriesOK, TokensOK, CodesOK, TicketsOK, UsesOK, LoginsOK, ChallengesOK, SessionsOK, OriginOK;
  }

  /** What a link answered Linked writes: the row of its answer has the key of the verified login, the
      ticket's user and the login's e-mail columns; a row that was there keeps its status, a new one
      is active; no other row changes. */
  lemma LinkWritesTheLogin(cfg: Config, run: seq<World>, acts: seq<Action>, i: nat, hid: Id)
    requires IsRun(cfg, run, acts) && Moves(run, acts, i, hid)
    requires var h := run[i].handlers[hid]; (h.LinkSelect? || h.LinkUpdate? || h.LinkInsert?) && h.source.FromCallback?
    requires hid in run[i + 1].hist.links && run[i + 1].hist.links[hid].result.Linked?
    ensures var h := run[i + 1].hist;
            var id := h.links[hid].result.id;
            && id in run[i + 1].rows && hid in h.logins && h.logins[hid].sid in h.sessions
            && (var row := run[i + 1].rows[id];
                var l := h.logins[hid];
                var s := h.sessions[l.sid];
                && Stands(l, row.provider, row.subject)
                && row.email == l.who.email && row.emailVerified == l.who.emailVerified
                && s.base.purpose == "link" && s.creator in h.claims && h.claims[s.creator].ticket.kisUserId == row.user
                && row.status == (if id in run[i].rows then run[i].rows[id].status else Active))
            && (forall k {:trigger run[i + 1].rows[k]} :: k in run[i + 1].rows && k != id ==> k in run[i].rows && run[i + 1].rows[k] == run[i].rows[k])
  {
    hide IsRun, Inv, Core, Past, UsedPast, Next, Enabled, Follows, StepHandler, Stands, Conflicts;
    MoveIs(cfg, run, acts, i, hid);
    StepOfRun(cfg, run, acts, i);
    RowIsNew(cfg, run[i], hid, acts[i].choice);
    var w, h := Drawn(Ticked(run[i]), acts[i].choice), run[i].handlers[hid];
    LinkNotYet(run[i], hid);
    LinkerKnows(cfg, w, hid);
    SessionIs(cfg, w, h.source.visit.sid);
    if h.LinkSelect? {
      SelectRefuses(cfg, w, hid, acts[i].choice);
    } else if h.LinkUpdate? {
      UpdateWrites(cfg, w, hid, acts[i].choice);
    } else {
      InsertWrites(cfg, w, hid, acts[i].choice);
    }
  }

  lemma LinkNotYet(w: World, hid: Id)
    requires Past(w.handlers, w.hist) && hid in w.handlers
    requires var h := w.handlers[hid]; h.LinkSelect? || h.LinkUpdate? || h.LinkInsert?
    ensures hid !in w.hist.links
  {
    NotYet(w, hid);
  }

  lemma LinkerKnows(cfg: Config, w: World, hid: Id)
    requires Core(cfg, w) && hid in w.handlers
    requires var h := w.handlers[hid]; (h.LinkSelect? || h.LinkUpdate? || h.LinkInsert?) && h.source.FromCallback?
    ensures var h := w.handlers[hid];
            var v := h.source.visit;
            && hid in w.hist.logins && w.hist.logins[hid].sid == v.sid && w.hist.logins[hid].who == v.who
            && Stands(w.hist.logins[hid], h.args.provider, h.args.subject)
            && h.args.email == v.who.email && h.args.emailVerified == v.who.emailVerified && h.args.user != ""
            && v.sid in w.hist.sessions && w.hist.sessions[v.sid].base.purpose == "link"
            && w.hist.sessions[v.sid].base.linkKisUserId == Some(h.args.user)
    ensures w.handlers[hid].LinkUpdate? ==> HoldsTriple(w.rows, w.handlers[hid].row, w.handlers[hid].args)
  {
    hide Core;
    HandlerKnows(cfg, w, hid);
  }

  lemma AnswerWrites(w: World, hid: Id, src: LinkSource, a: LinkArgs, r: LinkResult)
    ensures var w' := Answer(w, hid, src, a, r);
            && hid in w'.hist.links && w'.hist.links[hid] == LinkOutcome(a, r) && w'.rows == w.rows
            && w'.hist.logins == w.hist.logins && w'.hist.sessions == w.hist.sessions && w'.hist.claims == w.hist.claims
  {
  }

  /** After a Linked answer, row `id` carries what was asked and no other row has changed. */
  ghost predicate WritesLink(w: World, w': World, hid: Id, a: LinkArgs, id: Id, status: Status) {
    && hid in w'.hist.links && w'.hist.links[hid] == LinkOutcome(a, Linked(id))
    && w'.hist.logins == w.hist.logins && w'.hist.sessions == w.hist.sessions && w'.hist.claims == w.hist.claims
    && id in w'.rows && w'.rows[id] == Row(a.provider, a.subject, a.user, a.email, a.emailVerified, status)
    && forall k {:trigger w'.rows[k]} :: k in w'.rows && k != id ==> k in w.rows && w'.rows[k] == w.rows[k]
  }

  lemma SelectRefuses(cfg: Config, w: World, hid: Id, c: Choice)
    requires hid in w.handlers && hid !in w.hist.links && w.handlers[hid].LinkSelect?
    ensures var w' := StepHandler(cfg, w, hid, c); hid in w'.hist.links ==> w'.hist.links[hid].result.AlreadyLinked?
  {
    hide FindByKey, Answer;
    AnswerWrites(w, hid, w.handlers[hid].source, w.handlers[hid].args, AlreadyLinked);
  }

  lemma UpdateWrites(cfg: Config, w: World, hid: Id, c: Choice)
    requires hid in w.handlers && w.handlers[hid].LinkUpdate? && HoldsTriple(w.rows, w.handlers[hid].row, w.handlers[hid].args)
    ensures var h := w.handlers[hid]; WritesLink(w, StepHandler(cfg, w, hid, c), hid, h.args, h.row, w.rows[h.row].status)
  {
    hide Answer;
    var h := w.handlers[hid];
    AnswerWrites(w.(rows := Refreshed(w.rows, h.row, h.args)), hid, h.source, h.args, Linked(h.row));
  }

  lemma StepIsInsert(cfg: Config, w: World, hid: Id, c: Choice)
    requires hid in w.handlers && w.handlers[hid].LinkInsert?
    ensures StepHandler(cfg, w, hid, c) == StepLinkInsert(w, hid, w.handlers[hid].source, w.handlers[hid].args, c)
  {
    hide StepLinkInsert;
  }

  lemma InsertWrites(cfg: Config, w: World, hid: Id, c: Choice)
    requires hid in w.handlers && w.handlers[hid].LinkInsert?
    ensures var h := w.handlers[hid];
            var w' := StepHandler(cfg, w, hid, c);
            if Conflicts(w.rows, h.args) then hid in w'.hist.links && w'.hist.links[hid].result.AlreadyLinked?
            else WritesLink(w, w', hid, h.args, c.draw, Active)
  {
    hide Answer, Conflicts, StepHandler;
    var h := w.handlers[hid];
    StepIsInsert(cfg, w, hid, c);
    AnswerWrites(w, hid, h.source, h.args, AlreadyLinked);
    AnswerWrites(WithInsert(w, c.draw, h.args, if h.source.FromServer? then ByServer else ByCallback(hid)), hid, h.source, h.args, Linked(c.draw));
  }

  // ---------------------------------------------------------------- tenants

  /** An enterprise callback logs in only to a session created for its own partner, whose name is
      a well-formed slug. */
  lemma LoginServesItsTenant(cfg: Config, run: seq<World>, acts: seq<Action>, i: nat, hid: Id)
    requires IsRun(cfg, run, acts) && i < |run| && hid in run[i].hist.logins && run[i].hist.logins[hid].route.Enterprise?
    ensures var h := run[i].hist;
            var l := h.logins[hid];
            && l.sid in h.sessions && h.sessions[l.sid].creator in h.approvals
            && h.sessions[l.sid].base.partnerSlug == Some(l.route.slug)
            && h.approvals[h.sessions[l.sid].creator].q.partnerSlug == Some(l.route.slug)
            && IsSlug(l.route.slug)
  {
    hide IsRun, Inv, Core, IsSlug;
    RunInv(cfg, run, acts, i);
    InvCore(cfg, run[i]);
    var h := run[i].hist;
    LoginIs(cfg, run[i], hid);
    SessionIs(cfg, run[i], h.logins[hid].sid);
    ApprovalIs(cfg, run[i], h.sessions[h.logins[hid].sid].creator);
  }

  lemma ApprovalIs(cfg: Config, w: World, k: Id)
    requires Core(cfg, w) && k in w.hist.approvals
    ensures SlugOK(w.hist.approvals[k].q)
  {
    hide HandlersOK, EntriesOK, TokensOK, OriginsOK, CodesOK, TicketsOK, UsesOK, LoginsOK, ChallengesOK, SessionsOK, SlugOK;
  }

  /** Two logins with one (provider, subject) key came over the same route with the same raw sub. */
  lemma SameKeySameTenant(cfg: Config, run: seq<World>, acts: seq<Action>, i: nat, a: Id, b: Id, provider: string, subject: string)
    requires IsRun(cfg, run, acts) && i < |run| && a in run[i].hist.logins && b in run[i].hist.logins
    requires Stands(run[i].hist.logins[a], provider, subject) && Stands(run[i].hist.logins[b], provider, subject)
    ensures run[i].hist.logins[a].route == run[i].hist.logins[b].route
    ensures run[i].hist.logins[a].who.sub == run[i].hist.logins[b].who.sub
  {
    hide IsRun, IsSlug;
    var la, lb := run[i].hist.logins[a], run[i].hist.logins[b];
    if la.route.Enterprise? {
      LoginServesItsTenant(cfg, run, acts, i, a);
      LoginServesItsTenant(cfg, run, acts, i, b);
      CompositeIsInjective(la.route.slug, la.who.sub, lb.route.slug, lb.who.sub);
    }
  }

  /** Callbacks that read or link the same identity row, whenever they do, belong to one tenant and
      were given the same raw sub. */
  lemma TenantsShareNoIdentity(cfg: Config, run: seq<World>, acts: seq<Action>, i: nat, a: Id, b: Id)
    requires IsRun(cfg, run, acts) && i < |run| && a in run[i].hist.uses && b in run[i].hist.uses
    requires run[i].hist.uses[a] == run[i].hist.uses[b]
    ensures var h := run[i].hist;
            && a in h.logins && b in h.logins
            && h.logins[a].route == h.logins[b].route && h.logins[a].who.sub == h.logins[b].who.sub
  {
    hide IsRun, Inv, Core, Stands;
    RunInv(cfg, run, acts, i);
    InvCore(cfg, run[i]);
    UseIs(cfg, run[i], a);
    UseIs(cfg, run[i], b);
    var row := run[i].rows[run[i].hist.uses[a]];
    SameKeySameTenant(cfg, run, acts, i, a, b, row.provider, row.subject);
  }

  lemma UseIs(cfg: Config, w: World, hid: Id)
    requires Core(cfg, w) && hid in w.hist.uses
    ensures hid in w.hist.logins && RowOfLogin(w.rows, w.hist.uses[hid], w.hist.logins[hid])
  {
    hide HandlersOK, EntriesOK, TokensOK, OriginsOK, CodesOK, TicketsOK, LoginsOK, ChallengesOK, SessionsOK, RowOfLogin;
  }

  /** A registration ticket for an identity, and any login or ticket with that identity's key,
      come from one tenant. */
  lemma TenantsShareNoTicket(cfg: Config, run: seq<World>, acts: seq<Action>, i: nat, t: Id, hid: Id)
    requires IsRun(cfg, run, acts) && i < |run| && t in run[i].hist.tickets && hid in run[i].hist.logins
    requires Stands(run[i].hist.logins[hid], run[i].hist.tickets[t].payload.provider, run[i].hist.tickets[t].payload.providerSubject)
    ensures var h := run[i].hist;
            && h.tickets[t].owner in h.logins
            && h.logins[h.tickets[t].owner].route == h.logins[hid].route
            && h.logins[h.tickets[t].owner].who.sub == h.logins[hid].who.sub
            && h.tickets[t].payload.partnerSlug == (if h.logins[hid].route.Google? then None else Some(h.logins[hid].route.slug))
  {
    hide IsRun, Inv, Core, Stands;
    RunInv(cfg, run, acts, i);
    InvCore(cfg, run[i]);
    TicketIs(cfg, run[i], t);
    var p := run[i].hist.tickets[t].payload;
    SameKeySameTenant(cfg, run, acts, i, run[i].hist.tickets[t].owner, hid, p.provider, p.providerSubject);
  }

  // ---------------------------------------------------------------- login and registration paths

  /** No id is both a code and a ticket, so neither can be redeemed as the other. */
  lemma PathsShareNoId(cfg: Config, run: seq<World>, acts: seq<Action>, i: nat, id: Id)
    requires IsRun(cfg, run, acts) && i < |run|
    ensures !(id in run[i].hist.codes && id in run[i].hist.tickets)
    ensures !(id in run[i].hist.redeemed && id in run[i].hist.redeemedTickets)
    ensures !(CodeKey(id) in run[i].db && TicketKey(id) in run[i].db)
  {
    hide IsRun, Inv, Core;
    RunInv(cfg, run, acts, i);
    InvCore(cfg, run[i]);
    IdsApart(cfg, run[i], id);
    if CodeKey(id) in run[i].db {
      CodeEntryIs(cfg, run[i], id);
    }
    if TicketKey(id) in run[i].db {
      TicketEntryIs(cfg, run[i], id);
    }
  }

  lemma IdsApart(cfg: Config, w: World, id: Id)
    requires Core(cfg, w)
    ensures !(id in w.hist.codes && id in w.hist.tickets)
    ensures id in w.hist.redeemed ==> id in w.hist.codes
    ensures id in w.hist.redeemedTickets ==> id in w.hist.tickets
  {
    hide HandlersOK, EntriesOK, TokensOK, OriginsOK, CodesOK, UsesOK, LoginsOK, ChallengesOK, SessionsOK, TicketsOK;
  }

  /** Authorization tokens name a user and are not for registration; registration tokens name
      none, belong to the ticket's identity, and are for enterprise registration exactly when a
      partner is named. */
  lemma TokensKeepToTheirPath(cfg: Config, run: seq<World>, acts: seq<Action>, i: nat, n: nat)
    requires IsRun(cfg, run, acts) && i < |run| && n < |run[i].hist.tokens|
    ensures var t := run[i].hist.tokens[n];
            if t.AuthToken? then t.subject != "" && t.purpose != "registration"
            else
              && t.purpose == (if t.partnerSlug.Some? then "enterprise_sso_registration" else "registration")
              && t.code in run[i].hist.tickets && run[i].hist.tickets[t.code].at < t.at
              && run[i].hist.tickets[t.code].owner in run[i].hist.logins
              && (var l := run[i].hist.logins[run[i].hist.tickets[t.code].owner];
                  Stands(l, t.provider, t.providerSubject) && t.email == l.who.email && t.emailVerified == l.who.emailVerified
                  && t.partnerSlug == (if l.route.Google? then None else Some(l.route.slug)))
  {
    hide IsRun, Inv, Core, Stands;
    RunInv(cfg, run, acts, i);
    InvCore(cfg, run[i]);
    var t := run[i].hist.tokens[n];
    TokenIs(cfg, run[i], n);
    if t.AuthToken? {
      CodeChain(cfg, run[i], t.code);
    } else {
      TicketIs(cfg, run[i], t.code);
    }
  }

  // ---------------------------------------------------------------- the identity table over a run

  /** In every state (provider, subject) to user is a partial injection, whatever races ran. */
  lemma TableIsUnique(cfg: Config, run: seq<World>, acts: seq<Action>, i: nat)
    requires IsRun(cfg, run, acts) && i < |run|
    ensures Unique(run[i].rows)
  {
    hide IsRun, Inv, Core;
    RunInv(cfg, run, acts, i);
    InvCore(cfg, run[i]);
    TableIs(cfg, run[i]);
  }

  lemma TableIs(cfg: Config, w: World)
    requires Core(cfg, w)
    ensures Unique(w.rows)
  {
    hide HandlersOK, EntriesOK, TokensOK, OriginsOK, CodesOK, UsesOK, LoginsOK, ChallengesOK, SessionsOK, TicketsOK, Unique;
  }

  /** A `link` that answered Linked left a row with exactly its triple; one that answered
      AlreadyLinked met a row with its key or its user. Both stay true ever after. */
  lemma LinkAnswersAreTrue(cfg: Config, run: seq<World>, acts: seq<Action>, i: nat, hid: Id)
    requires IsRun(cfg, run, acts) && i < |run| && hid in run[i].hist.links
    ensures var o := run[i].hist.links[hid];
            if o.result.Linked? then HoldsTriple(run[i].rows, o.result.id, o.args) else Conflicts(run[i].rows, o.args)
  {
    hide IsRun, Inv, Core;
    RunInv(cfg, run, acts, i);
    InvCore(cfg, run[i]);
    LinkIs(cfg, run[i], hid);
  }

  lemma LinkIs(cfg: Config, w: World, hid: Id)
    requires Core(cfg, w) && hid in w.hist.links
    ensures LinkOK(w.hist.links[hid], w.rows)
  {
    hide HandlersOK, EntriesOK, TokensOK, OriginsOK, CodesOK, UsesOK, LoginsOK, ChallengesOK, SessionsOK, TicketsOK, LinkOK;
  }

  /** What a repeated `link` of a stored triple has come to: it is on its way, has failed without an
      answer, or has answered Linked. */
  ghost predicate Repeating(w: World, hid: Id, a: LinkArgs, id: Id) {
    && hid in w.handlers
    && ((hid !in w.hist.links && w.handlers[hid].LinkSelect? && w.handlers[hid].args == a)
        || (hid !in w.hist.links && w.handlers[hid].LinkUpdate? && w.handlers[hid].args == a && w.handlers[hid].row == id)
        || (hid !in w.hist.links && w.handlers[hid].Finished?)
        || (hid in w.hist.links && w.hist.links[hid] == LinkOutcome(a, Linked(id)) && Stage(w.handlers[hid]) >= 5))
  }

  lemma RepeatSelect(cfg: Config, w: World, hid: Id, c: Choice, src: LinkSource, a: LinkArgs, id: Id)
    requires Unique(w.rows) && HoldsTriple(w.rows, id, a)
    requires hid in w.handlers && w.handlers[hid] == LinkSelect(src, a)
    ensures var w' := StepHandler(cfg, w, hid, c);
            hid in w'.handlers && w'.handlers[hid] == LinkUpdate(src, a, id) && w'.hist == w.hist && w'.rows == w.rows
  {
    FindByKeyIs(w.rows, a.provider, a.subject, id);
    hide Unique;
  }

  lemma RepeatUpdate(cfg: Config, w: World, hid: Id, c: Choice, src: LinkSource, a: LinkArgs, id: Id)
    requires id in w.rows && hid in w.handlers && w.handlers[hid] == LinkUpdate(src, a, id)
    ensures var w' := StepHandler(cfg, w, hid, c);
            && hid in w'.handlers && Stage(w'.handlers[hid]) >= 5
            && hid in w'.hist.links && w'.hist.links[hid] == LinkOutcome(a, Linked(id))
  {
    hide Refreshed;
    AnswerRecords(w.(rows := Refreshed(w.rows, id, a)), hid, src, a, Linked(id));
    hide Answer;
  }

  lemma AnswerRecords(w: World, hid: Id, src: LinkSource, a: LinkArgs, r: LinkResult)
    ensures var w' := Answer(w, hid, src, a, r);
            && hid in w'.handlers && Stage(w'.handlers[hid]) >= 5
            && hid in w'.hist.links && w'.hist.links[hid] == LinkOutcome(a, r)
  {
    if src.FromServer? {
    } else if r.Linked? {
    } else {
    }
  }

  lemma RepeatStep(cfg: Config, w: World, hid: Id, c: Choice, a: LinkArgs, id: Id)
    requires Unique(w.rows) && HoldsTriple(w.rows, id, a) && Repeating(w, hid, a, id) && hid !in w.hist.links && !w.handlers[hid].Finished?
    ensures Repeating(StepHandler(cfg, w, hid, c), hid, a, id)
  {
    hide Unique, StepHandler, Stage;
    var h := w.handlers[hid];
    if h.LinkSelect? {
      RepeatSelect(cfg, w, hid, c, h.source, a, id);
    } else {
      RepeatUpdate(cfg, w, hid, c, h.source, a, id);
    }
  }

  lemma RepeatFollows(w: World, w': World, act: Action, hid: Id, a: LinkArgs, id: Id)
    requires Follows(w, w', act) && Repeating(w, hid, a, id)
    requires act.Resume? && act.hid == hid ==> hid in w.hist.links
    ensures Repeating(w', hid, a, id)
  {
    hide Treats, Writes, RowsKept, Sources, IsEntry;
  }

  lemma NowLater(cfg: Config, w: World, c: Choice, hid: Id, a: LinkArgs, id: Id)
    requires Repeating(w, hid, a, id)
    ensures Repeating(Drawn(Ticked(w), c), hid, a, id)
  {
  }

  lemma HoldsLater(rows: Table, rows': Table, id: Id, a: LinkArgs)
    requires HoldsTriple(rows, id, a) && Keeps(rows, rows')
    ensures HoldsTriple(rows', id, a)
  {
  }

  /** Once a triple is a row, every `link` call that makes its SELECT later and answers, answers
      Linked with that row's id. */
  lemma {:induction false} LaterLinkIsLinked(cfg: Config, run: seq<World>, acts: seq<Action>, i: nat, j: nat, k: nat,
                                             hid: Id, a: LinkArgs, id: Id)
    requires IsRun(cfg, run, acts) && i <= j <= k < |run| && HoldsTriple(run[i].rows, id, a)
    requires hid in run[j].handlers && run[j].handlers[hid].LinkSelect? && run[j].handlers[hid].args == a
    ensures Repeating(run[k], hid, a, id)
    decreases k
  {
    hide IsRun, Inv, Core, Past, Next, Enabled, Follows, Repeating, StepHandler, Unique, HoldsTriple, Keeps;
    StartOfRun(cfg, run, acts);
    if j == k {
      RunInv(cfg, run, acts, j);
      SelectingIsRepeating(cfg, run[j], hid, a, id);
    } else {
      LaterLinkIsLinked(cfg, run, acts, i, j, k - 1, hid, a, id);
      StepOfRun(cfg, run, acts, k - 1);
      var w := run[k - 1];
      if acts[k - 1].Resume? && acts[k - 1].hid == hid && hid !in w.hist.links {
        var c := acts[k - 1].choice;
        ResumeIs(cfg, w, hid, c);
        RowsOfRun(cfg, run, acts, i, k - 1);
        HoldsLater(run[i].rows, w.rows, id, a);
        TableIsUnique(cfg, run, acts, k - 1);
        NowLater(cfg, w, c, hid, a, id);
        RepeatStep(cfg, Drawn(Ticked(w), c), hid, c, a, id);
      } else {
        RepeatFollows(w, run[k], acts[k - 1], hid, a, id);
      }
    }
  }

  lemma SelectingIsRepeating(cfg: Config, w: World, hid: Id, a: LinkArgs, id: Id)
    requires Inv(cfg, w) && hid in w.handlers && w.handlers[hid].LinkSelect? && w.handlers[hid].args == a
    ensures Repeating(w, hid, a, id)
  {
    hide Core, Singles, UsedPast, Past;
    NotYet(w, hid);
  }

  /** A `link` whose SELECT found nothing and whose INSERT comes after another's is refused, even
      if the row now there carries its own triple; it inserts exactly when nothing conflicts. */
  lemma RacingInsert(cfg: Config, run: seq<World>, acts: seq<Action>, i: nat, hid: Id)
    requires IsRun(cfg, run, acts) && Moves(run, acts, i, hid) && run[i].handlers[hid].LinkInsert?
    ensures var a := run[i].handlers[hid].args;
            && hid in run[i + 1].hist.links && run[i + 1].hist.links[hid].args == a
            && (run[i + 1].hist.links[hid].result.Linked? <==> !Conflicts(run[i].rows, a))
            && (Conflicts(run[i].rows, a) ==> run[i + 1].rows == run[i].rows)
  {
    hide IsRun, Core, Past, UsedPast, StepHandler, StepLinkInsert, Conflicts;
    MoveIs(cfg, run, acts, i, hid);
    var w := Drawn(Ticked(run[i]), acts[i].choice);
    var h := run[i].handlers[hid];
    InsertStep(cfg, w, hid, acts[i].choice, h.source, h.args);
  }

  lemma InsertStep(cfg: Config, w: World, hid: Id, c: Choice, src: LinkSource, a: LinkArgs)
    requires hid in w.handlers && w.handlers[hid] == LinkInsert(src, a)
    ensures var w' := StepHandler(cfg, w, hid, c);
            && hid in w'.hist.links && w'.hist.links[hid].args == a
            && (w'.hist.links[hid].result.Linked? <==> !Conflicts(w.rows, a))
            && (Conflicts(w.rows, a) ==> w'.rows == w.rows)
  {
    hide Conflicts, WithInsert;
    if Conflicts(w.rows, a) {
      AnswerRecords(w, hid, src, a, AlreadyLinked);
    } else {
      AnswerRecords(WithInsert(w, c.draw, a, if src.FromServer? then ByServer else ByCallback(hid)), hid, src, a, Linked(c.draw));
    }
    AnswerKeepsRows(w, hid, src, a, AlreadyLinked);
    hide Answer;
  }

  lemma AnswerKeepsRows(w: World, hid: Id, src: LinkSource, a: LinkArgs, r: LinkResult)
    ensures Answer(w, hid, src, a, r).rows == w.rows
  {
  }

  /** A call whose SELECT found nothing: it waits at its INSERT until it answers or fails. */
  ghost predicate Waits(w: World, hid: Id, a: LinkArgs) {
    && hid in w.handlers
    && (hid in w.hist.links || w.handlers[hid].Finished? || (w.handlers[hid].LinkInsert? && w.handlers[hid].args == a))
  }

  lemma WaitFollows(w: World, w': World, act: Action, hid: Id, a: LinkArgs)
    requires Follows(w, w', act) && Waits(w, hid, a)
    requires act.Resume? && act.hid == hid ==> hid in w.hist.links || hid in w'.hist.links
    ensures Waits(w', hid, a)
  {
    hide Treats, Writes, RowsKept, Sources, IsEntry;
  }

  lemma SelectStep(cfg: Config, w: World, hid: Id, c: Choice, src: LinkSource, a: LinkArgs)
    requires hid in w.handlers && w.handlers[hid] == LinkSelect(src, a)
    ensures var w' := StepHandler(cfg, w, hid, c);
            FindByKey(w.rows, a.provider, a.subject).None? ==>
              hid in w'.handlers && w'.handlers[hid] == LinkInsert(src, a) && w'.hist.links == w.hist.links
  {
    hide FindByKey, Answer;
  }

  lemma LinksStay(w: World, w': World, act: Action, hid: Id)
    requires Follows(w, w', act) && hid in w.hist.links
    ensures hid in w'.hist.links
  {
    hide Treats, Writes, RowsKept, Sources, IsEntry, Names;
  }

  lemma {:induction false} AnsweredStays(cfg: Config, run: seq<World>, acts: seq<Action>, i: nat, j: nat, hid: Id)
    requires IsRun(cfg, run, acts) && i <= j < |run| && hid in run[i].hist.links
    ensures hid in run[j].hist.links
    decreases j
  {
    hide IsRun, Inv, Next, Enabled, Follows;
    StartOfRun(cfg, run, acts);
    if i < j {
      AnsweredStays(cfg, run, acts, i, j - 1, hid);
      StepOfRun(cfg, run, acts, j - 1);
      LinksStay(run[j - 1], run[j], acts[j - 1], hid);
    }
  }

  lemma {:induction false} WaitsAtInsert(cfg: Config, run: seq<World>, acts: seq<Action>, i: nat, j: nat, hid: Id, a: LinkArgs)
    requires IsRun(cfg, run, acts) && i <= j < |run| && Waits(run[i], hid, a)
    ensures Waits(run[j], hid, a)
    decreases j
  {
    hide IsRun, Inv, Next, Enabled, Follows, StepHandler, Conflicts;
    StartOfRun(cfg, run, acts);
    if i < j {
      WaitsAtInsert(cfg, run, acts, i, j - 1, hid, a);
      StepOfRun(cfg, run, acts, j - 1);
      var w := run[j - 1];
      if acts[j - 1].Resume? && acts[j - 1].hid == hid && hid !in w.hist.links {
        ResumeIs(cfg, w, hid, acts[j - 1].choice);
        InsertStep(cfg, Drawn(Ticked(w), acts[j - 1].choice), hid, acts[j - 1].choice, w.handlers[hid].source, a);
      }
      WaitFollows(w, run[j], acts[j - 1], hid, a);
    }
  }

  lemma OneHolder(t: Table, a: LinkArgs, i: Id, j: Id)
    requires Unique(t) && HoldsTriple(t, i, a) && j in t && HasKey(t[j], a.provider, a.subject)
    ensures i == j
  {
    assert HasKey(t[i], t[j].provider, t[j].subject);
  }

  lemma HolderConflicts(t: Table, a: LinkArgs, id: Id)
    requires HoldsTriple(t, id, a)
    ensures Conflicts(t, a)
  {
  }

  /** Over a whole call, from its SELECT at step `s` to its answer at step `j`: when its own triple is
      a row as it answers, it is refused exactly if it made its SELECT before that row was there. */
  lemma RepeatIsRefusedExactly(cfg: Config, run: seq<World>, acts: seq<Action>, s: nat, j: nat, hid: Id, a: LinkArgs, id: Id)
    requires IsRun(cfg, run, acts) && s <= j && Moves(run, acts, s, hid) && Moves(run, acts, j, hid)
    requires run[s].handlers[hid].LinkSelect? && run[s].handlers[hid].args == a
    requires hid !in run[j].hist.links && hid in run[j + 1].hist.links && HoldsTriple(run[j].rows, id, a)
    ensures run[j + 1].hist.links[hid] == LinkOutcome(a, if HoldsTriple(run[s].rows, id, a) then Linked(id) else AlreadyLinked)
  {
    hide IsRun, Inv, Core, Past, UsedPast, StepHandler, Unique, Conflicts, Keeps, HoldsTriple, Waits, Repeating;
    if HoldsTriple(run[s].rows, id, a) {
      LaterLinkIsLinked(cfg, run, acts, s, s, j + 1, hid, a, id);
      RepeatedIs(run[j + 1], hid, a, id);
    } else {
      MoveIs(cfg, run, acts, s, hid);
      SelectStep(cfg, Drawn(Ticked(run[s]), acts[s].choice), hid, acts[s].choice, run[s].handlers[hid].source, a);
      RowsOfRun(cfg, run, acts, s, j);
      TableIsUnique(cfg, run, acts, j);
      FoundIsHolder(run[s].rows, run[j].rows, a, id);
      if s < j && hid in run[s + 1].hist.links {
        AnsweredStays(cfg, run, acts, s + 1, j, hid);
      }
      WaitsIs(run[s + 1], hid, a);
      assert s < j;
      WaitsAtInsert(cfg, run, acts, s + 1, j, hid, a);
      MoveIs(cfg, run, acts, j, hid);
      WaiterInserts(run[j], hid, a);
      HolderConflicts(run[j].rows, a, id);
      RacingInsert(cfg, run, acts, j, hid);
    }
  }

  lemma RepeatedIs(w: World, hid: Id, a: LinkArgs, id: Id)
    requires Repeating(w, hid, a, id) && hid in w.hist.links
    ensures w.hist.links[hid] == LinkOutcome(a, Linked(id))
  {
  }

  /** A SELECT that finds a row with the key of a later triple finds that triple's row. */
  lemma FoundIsHolder(t: Table, t': Table, a: LinkArgs, id: Id)
    requires Keeps(t, t') && Unique(t') && HoldsTriple(t', id, a)
    ensures var found := FindByKey(t, a.provider, a.subject); found.Some? ==> HoldsTriple(t, id, a)
  {
    var found := FindByKey(t, a.provider, a.subject);
    if found.Some? {
      OneHolder(t', a, id, found.value);
    }
  }

  lemma WaitsIs(w: World, hid: Id, a: LinkArgs)
    ensures hid in w.handlers && w.handlers[hid].LinkInsert? && w.handlers[hid].args == a ==> Waits(w, hid, a)
  {
  }

  lemma WaiterInserts(w: World, hid: Id, a: LinkArgs)
    requires Waits(w, hid, a) && hid !in w.hist.links && !w.handlers[hid].Finished?
    ensures w.handlers[hid].LinkInsert? && w.handlers[hid].args == a
  {
  }
}
