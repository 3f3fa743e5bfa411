/** What the protocol guarantees, over every run: any number of concurrent requests, any
    interleaving of their steps, any answers from identity providers and any choice of inputs. */
module ProtocolTheorems {
  import opened Wrappers
  import opened Records
  import opened RedisKeyspace
  import opened IdentityTable
  import opened Registry
  import opened TenantKey
  import opened Protocol
  import opened ProtocolInvariant
  import opened ProtocolChanges
  import opened ProtocolSteps
  import opened ProtocolOutcomes
  import opened ProtocolPast
  import opened ProtocolRuns
  import opened ProtocolTraces

  // ---------------------------------------------------------------- the chain behind a code

  /** A code goes back to one login, on one session, created by one approved authorize request;
      its row is the verified identity's, and belongs to its user. */
  ghost predicate Chain(h: History, rows: Table, code: Id) {
    && code in h.codes
    && (var k := h.codes[code];
        && k.sid in h.sessions && h.sessions[k.sid].creator in h.approvals && k.owner in h.logins
        && (var s := h.sessions[k.sid];
            var a := h.approvals[s.creator];
            var l := h.logins[k.owner];
            && a.at < s.at < l.at < k.at < h.steps
            && l.sid == k.sid && RouteServes(l.route, s.base) && l.nonce == s.base.nonce
            && l.verifier in h.verifiers && h.verifiers[l.verifier] == k.sid
            && k.payload.clientId == s.base.clientId == a.q.clientId
            && k.payload.redirectUri == s.base.redirectUri == a.q.redirectUri
            && k.payload.purpose == s.base.purpose == a.q.purpose
            && k.payload.purpose != "registration" && k.payload.kisUserId != ""
            && RowOfLogin(rows, k.payload.authIdentityId, l)
            && rows[k.payload.authIdentityId].user == k.payload.kisUserId
            && (s.base.purpose == "link" ==>
                  s.creator in h.claims && h.claims[s.creator].ticket.kisUserId == k.payload.kisUserId)))
  }

  lemma CodeIs(cfg: Config, w: World, code: Id)
    requires Core(cfg, w) && code in w.hist.codes
    ensures w.hist.codes[code].at < w.hist.steps && CodeOK(w.hist.codes[code], w.hist.challenges, w.hist.sessions)
  {
    hide HandlersOK, EntriesOK, TokensOK, OriginsOK, ChallengesOK, TicketsOK, UsesOK, SessionsOK, LoginsOK, CodeOK;
  }

  lemma ChallengeIs(cfg: Config, w: World, ch: Id)
    requires Core(cfg, w) && ch in w.hist.challenges
    ensures ChallengeOK(cfg, w.hist.challenges[ch], w.hist.logins, w.hist.sessions, w.hist.uses, w.rows)
  {
    hide HandlersOK, EntriesOK, TokensOK, OriginsOK, CodesOK, TicketsOK, UsesOK, SessionsOK, LoginsOK, ChallengeOK;
  }

  lemma LoginIs(cfg: Config, w: World, hid: Id)
    requires Core(cfg, w) && hid in w.hist.logins
    ensures LoginOK(w.hist.logins[hid], w.hist.sessions, w.hist.verifiers)
  {
    hide HandlersOK, EntriesOK, TokensOK, OriginsOK, CodesOK, TicketsOK, UsesOK, SessionsOK, ChallengesOK, LoginOK;
  }

  lemma SessionIs(cfg: Config, w: World, sid: Id)
    requires Core(cfg, w) && sid in w.hist.sessions
    ensures SessionOK(w.hist.sessions[sid], w.hist.approvals, w.hist.claims)
  {
    hide HandlersOK, EntriesOK, TokensOK, OriginsOK, CodesOK, TicketsOK, UsesOK, LoginsOK, ChallengesOK, SessionOK;
  }

  lemma CodeChain(cfg: Config, w: World, code: Id)
    requires Core(cfg, w) && code in w.hist.codes
    ensures Chain(w.hist, w.rows, code)
  {
    hide Core, RouteServes, RowOfLogin;
    CodeIs(cfg, w, code);
    var k := w.hist.codes[code];
    ChallengeIs(cfg, w, k.challenge);
    LoginIs(cfg, w, k.owner);
    SessionIs(cfg, w, k.sid);
  }

  // ---------------------------------------------------------------- end-to-end provenance

  /** An authorization token goes back, step by step, to one `/authorize` that saw the client
      active with this redirect target and purpose; the code's row was the verified identity's, and
      was active and the subject's own when the exchange read it. */
  ghost predicate Provenance(run: seq<World>, acts: seq<Action>, i: nat, t: Token)
    requires t.AuthToken? && i < |run|
  {
    var h := run[i].hist;
    && Chain(h, run[i].rows, t.code)
    && (var k := h.codes[t.code];
        var s := h.sessions[k.sid];
        var a := h.approvals[s.creator];
        var l := h.logins[k.owner];
        && a.at < s.at < l.at < k.at < t.foundAt < t.at < i
        && t.subject == k.payload.kisUserId && t.identity == k.payload.authIdentityId
        && t.audience == a.q.clientId && t.redirectUri == a.q.redirectUri && t.purpose == a.q.purpose
        && ApprovedAt(run, acts, s.creator, a) && CreatedAt(run, acts, k.sid, s)
        && LoggedInAt(run, acts, k.owner, l) && IssuedAt(run, acts, t.code, k)
        && FoundActive(run, t.foundAt, t.identity, t.subject, t.email, t.emailVerified)
        && Stands(l, run[t.foundAt].rows[t.identity].provider, run[t.foundAt].rows[t.identity].subject)
        && MintedAt(run, acts, t))
  }

  lemma TokenIs(cfg: Config, w: World, n: nat)
    requires Core(cfg, w) && n < |w.hist.tokens|
    ensures TokenOK(w.hist.tokens[n], w.hist.codes, w.hist.redeemed, w.hist.tickets, w.hist.redeemedTickets)
  {
    hide TokenOK, Spent, HandlersOK, EntriesOK;
    CoreTokens(cfg, w);
    assert w.hist.tokens[n] in w.hist.tokens;
  }

  lemma RowKeyKept(rows: Table, rows': Table, id: Id, l: Login)
    requires Keeps(rows, rows') && id in rows && RowOfLogin(rows', id, l)
    ensures Stands(l, rows[id].provider, rows[id].subject)
  {
  }

  lemma InvCore(cfg: Config, w: World)
    requires Inv(cfg, w)
    ensures Core(cfg, w)
  {
    hide Core;
  }

  /** Every authorization token of every run has its provenance. */
  lemma TokenProvenance(cfg: Config, run: seq<World>, acts: seq<Action>, i: nat, n: nat)
    requires IsRun(cfg, run, acts) && i < |run| && n < |run[i].hist.tokens| && run[i].hist.tokens[n].AuthToken?
    ensures Provenance(run, acts, i, run[i].hist.tokens[n])
  {
    hide IsRun, Inv, Core, ApprovedAt, CreatedAt, LoggedInAt, IssuedAt, RowOfLogin, Stands, Keeps, RouteServes;
    var t := run[i].hist.tokens[n];
    RunInv(cfg, run, acts, i);
    InvCore(cfg, run[i]);
    TokenIs(cfg, run[i], n);
    CodeChain(cfg, run[i], t.code);
    var s := run[i].hist.sessions[run[i].hist.codes[t.code].sid];
    ApprovalIsReal(cfg, run, acts, i, s.creator);
    SessionIsReal(cfg, run, acts, i, run[i].hist.codes[t.code].sid);
    LoginIsReal(cfg, run, acts, i, run[i].hist.codes[t.code].owner);
    CodeIsReal(cfg, run, acts, i, t.code);
    TokenIsReal(cfg, run, acts, i, n);
    SignerIsReal(cfg, run, acts, t.at, t.minter);
    RowsOfRun(cfg, run, acts, t.foundAt, i);
    RowKeyKept(run[t.foundAt].rows, run[i].rows, t.identity, run[i].hist.logins[run[i].hist.codes[t.code].owner]);
  }

  lemma TicketIs(cfg: Config, w: World, t: Id)
    requires Core(cfg, w) && t in w.hist.tickets
    ensures TicketOK(w.hist.tickets[t], w.hist.logins, w.hist.sessions) && w.hist.tickets[t].at < w.hist.steps
  {
    hide HandlersOK, EntriesOK, TokensOK, OriginsOK, CodesOK, UsesOK, LoginsOK, ChallengesOK, SessionsOK, TicketOK;
  }

  /** A registration token goes back in the same way: to one ticket, one login with its session's nonce
      and a verifier drawn for it, one session and one earlier `/authorize` for a registration; its
      provider, subject, e-mail and partner are the verified login's. */
  ghost predicate RegistrationProvenance(run: seq<World>, acts: seq<Action>, i: nat, t: Token)
    requires t.RegistrationToken? && i < |run|
  {
    var h := run[i].hist;
    && t.code in h.tickets
    && (var k := h.tickets[t.code];
        && k.sid in h.sessions && h.sessions[k.sid].creator in h.approvals && k.owner in h.logins
        && (var s := h.sessions[k.sid];
            var a := h.approvals[s.creator];
            var l := h.logins[k.owner];
            && a.at < s.at < l.at < k.at < t.at < i
            && l.sid == k.sid && RouteServes(l.route, s.base) && l.nonce == s.base.nonce
            && l.verifier in h.verifiers && h.verifiers[l.verifier] == k.sid
            && t.audience == s.base.clientId == a.q.clientId && t.redirectUri == s.base.redirectUri == a.q.redirectUri
            && s.base.purpose == a.q.purpose == "registration"
            && Stands(l, t.provider, t.providerSubject) && t.email == l.who.email && t.emailVerified == l.who.emailVerified
            && t.partnerSlug == (if l.route.Google? then None else Some(l.route.slug))
            && ApprovedAt(run, acts, s.creator, a) && CreatedAt(run, acts, k.sid, s)
            && LoggedInAt(run, acts, k.owner, l) && TicketIssuedAt(run, acts, t.code, k) && MintedAt(run, acts, t)))
  }

  /** Every registration token of every run has its provenance. */
  lemma RegistrationTokenProvenance(cfg: Config, run: seq<World>, acts: seq<Action>, i: nat, n: nat)
    requires IsRun(cfg, run, acts) && i < |run| && n < |run[i].hist.tokens| && run[i].hist.tokens[n].RegistrationToken?
    ensures RegistrationProvenance(run, acts, i, run[i].hist.tokens[n])
  {
    hide IsRun, Inv, Core, ApprovedAt, CreatedAt, LoggedInAt, TicketIssuedAt, MintedAt, RouteServes, Stands;
    var t := run[i].hist.tokens[n];
    RunInv(cfg, run, acts, i);
    InvCore(cfg, run[i]);
    TokenIs(cfg, run[i], n);
    TicketIs(cfg, run[i], t.code);
    var k := run[i].hist.tickets[t.code];
    LoginIs(cfg, run[i], k.owner);
    SessionIs(cfg, run[i], k.sid);
    ApprovalIsReal(cfg, run, acts, i, run[i].hist.sessions[k.sid].creator);
    SessionIsReal(cfg, run, acts, i, k.sid);
    LoginIsReal(cfg, run, acts, i, k.owner);
    TicketIsReal(cfg, run, acts, i, t.code);
    TokenIsReal(cfg, run, acts, i, n);
  }

  // ---------------------------------------------------------------- single use of codes and tickets

  /** However many handlers redeem a code concurrently, it becomes at most one token. */
  lemma OneTokenPerCode(cfg: Config, run: seq<World>, acts: seq<Action>, i: nat, m: nat, n: nat)
    requires IsRun(cfg, run, acts) && i < |run| && m < |run[i].hist.tokens| && n < |run[i].hist.tokens|
    requires run[i].hist.tokens[m].AuthToken? == run[i].hist.tokens[n].AuthToken?
    requires run[i].hist.tokens[m].code == run[i].hist.tokens[n].code
    ensures m == n
  {
    hide IsRun, Core, Past, UsedPast;
    RunInv(cfg, run, acts, i);
  }

  /** The two paths: codes of sign-ins and links, and registration tickets. */
  datatype Path = CodePath | TicketPath {
    function KeyOf(id: Id): Key {
      if CodePath? then CodeKey(id) else TicketKey(id)
    }

    function Redeemed(h: History): map<Id, Id> {
      if CodePath? then h.redeemed else h.redeemedTickets
    }

    predicate Mints(t: Token, id: Id) {
      t.AuthToken? == CodePath? && t.code == id
    }
  }

  ghost predicate NoTokenFor(tokens: seq<Token>, path: Path, id: Id) {
    forall t :: t in tokens ==> !path.Mints(t, id)
  }

  /** Handler `hid` redeemed the code or ticket, ended, and minted nothing. */
  ghost predicate Wasted(w: World, path: Path, id: Id, hid: Id) {
    && id in path.Redeemed(w.hist) && path.Redeemed(w.hist)[id] == hid
    && hid in w.handlers && w.handlers[hid].Finished?
    && NoTokenFor(w.hist.tokens, path, id)
  }

  lemma RedeemedIs(cfg: Config, w: World, path: Path, id: Id)
    requires Core(cfg, w) && id in path.Redeemed(w.hist)
    ensures path.KeyOf(id) !in w.db
  {
    hide HandlersOK, EntriesOK, TokensOK, OriginsOK, CodesOK, TicketsOK, UsesOK, LoginsOK, ChallengesOK, SessionsOK;
  }

  /** A redemption is final: no other handler ever redeems the code or ticket. */
  lemma RedeemedFollows(cfg: Config, w: World, w': World, a: Action, path: Path, id: Id)
    requires Follows(w, w', a) && id in path.Redeemed(w.hist) && path.KeyOf(id) !in w.db
    ensures id in path.Redeemed(w'.hist) && path.Redeemed(w'.hist)[id] == path.Redeemed(w.hist)[id]
  {
    hide Treats, Writes, RowsKept, Only, IsEntry;
  }

  lemma FinishedFollows(w: World, w': World, a: Action, hid: Id)
    requires Follows(w, w', a) && hid in w.handlers && w.handlers[hid].Finished?
    ensures hid in w'.handlers && w'.handlers[hid].Finished?
  {
    hide Treats, Writes, RowsKept, Adds, IsEntry;
  }

  lemma SignerRedeemed(cfg: Config, w: World, hid: Id)
    requires Core(cfg, w) && hid in w.handlers && (w.handlers[hid].ExchangeSign? || w.handlers[hid].TicketSign?)
    ensures var redeemed := (if w.handlers[hid].ExchangeSign? then CodePath else TicketPath).Redeemed(w.hist);
            w.handlers[hid].code in redeemed && redeemed[w.handlers[hid].code] == hid
  {
    hide Core;
    HandlerKnows(cfg, w, hid);
  }

  lemma WastedFollows(cfg: Config, w: World, a: Action, path: Path, id: Id, hid: Id)
    requires Inv(cfg, w) && Enabled(w, a) && Follows(w, Next(cfg, w, a), a) && Wasted(w, path, id, hid)
    ensures Wasted(Next(cfg, w, a), path, id, hid)
  {
    hide Inv, Core, Next, Follows, Enabled;
    var w' := Next(cfg, w, a);
    InvCore(cfg, w);
    RedeemedIs(cfg, w, path, id);
    RedeemedFollows(cfg, w, w', a, path, id);
    FinishedFollows(w, w', a, hid);
    TokensFollow(w, w', a);
    if w'.hist.tokens != w.hist.tokens {
      ResumeIs(cfg, w, a.hid, a.choice);
      SignMints(cfg, w, a.hid, a.choice);
      SignerRedeemed(cfg, w, a.hid);
      OneMore(w.hist.tokens, w'.hist.tokens, path, id);
    }
  }

  lemma OneMore(tokens: seq<Token>, tokens': seq<Token>, path: Path, id: Id)
    requires NoTokenFor(tokens, path, id) && tokens <= tokens' && |tokens'| == |tokens| + 1
    requires !path.Mints(tokens'[|tokens|], id)
    ensures NoTokenFor(tokens', path, id)
  {
    forall t | t in tokens' ensures !path.Mints(t, id) {
      var n :| 0 <= n < |tokens'| && tokens'[n] == t;
      if n < |tokens| {
        assert tokens[n] in tokens;
      }
    }
  }

  /** A code or ticket whose redemption ended without a token is spent for good. */
  lemma {:induction false} SpentForGood(cfg: Config, run: seq<World>, acts: seq<Action>, i: nat, j: nat, path: Path, id: Id, hid: Id)
    requires IsRun(cfg, run, acts) && i <= j < |run| && Wasted(run[i], path, id, hid)
    ensures Wasted(run[j], path, id, hid) && path.KeyOf(id) !in run[j].db
    decreases j
  {
    hide IsRun, Inv, Core, Next, Enabled, Follows, Wasted;
    StartOfRun(cfg, run, acts);
    if i < j {
      SpentForGood(cfg, run, acts, i, j - 1, path, id, hid);
      StepOfRun(cfg, run, acts, j - 1);
      WastedFollows(cfg, run[j - 1], acts[j - 1], path, id, hid);
    }
    RunInv(cfg, run, acts, j);
    InvCore(cfg, run[j]);
    WastedIs(run[j], path, id, hid);
    RedeemedIs(cfg, run[j], path, id);
  }

  lemma WastedIs(w: World, path: Path, id: Id, hid: Id)
    requires Wasted(w, path, id, hid)
    ensures id in path.Redeemed(w.hist)
  {
  }

  lemma CodeEntryIs(cfg: Config, w: World, code: Id)
    requires Core(cfg, w) && CodeKey(code) in w.db
    ensures code in w.hist.codes && w.db[CodeKey(code)].value == CodeValue(w.hist.codes[code].payload)
  {
    hide HandlersOK;
    assert EntryOK(w.hist, CodeKey(code), w.db[CodeKey(code)].value);
  }

  /** A live code is redeemed by the handler that consumes it, whatever it was asked with. */
  lemma ConsumeLive(cfg: Config, w: World, hid: Id, code: Id, clientId: string, redirectUri: string)
    requires Core(cfg, w) && Live(w.db, CodeKey(code), w.now) && clientId != "" && redirectUri != ""
    ensures code in w.hist.codes
    ensures var w' := StepExchangeConsume(w, hid, code, clientId, redirectUri);
            var p := w.hist.codes[code].payload;
            && hid in w'.handlers
            && w'.handlers[hid] == (if p.clientId == clientId && p.redirectUri == redirectUri then ExchangeFind(code, p) else Finished)
            && code in w'.hist.redeemed && w'.hist.redeemed[code] == hid && w'.hist.tokens == w.hist.tokens
  {
    hide Core, Consumed, Live;
    assert CodeKey(code) in w.db by { LiveIsKey(w.db, CodeKey(code), w.now); }
    CodeEntryIs(cfg, w, code);
    var p := w.hist.codes[code].payload;
    if p.clientId != clientId || p.redirectUri != redirectUri {
    } else {
    }
  }

  lemma LiveIsKey(db: Keyspace, k: Key, now: int)
    requires Live(db, k, now)
    ensures k in db
  {
  }

  lemma StepIsConsume(cfg: Config, w: World, hid: Id, c: Choice)
    requires hid in w.handlers && w.handlers[hid].ExchangeConsume?
    ensures StepHandler(cfg, w, hid, c)
            == StepExchangeConsume(w, hid, w.handlers[hid].code, w.handlers[hid].clientId, w.handlers[hid].redirectUri)
  {
    hide StepExchangeConsume;
  }

  /** Handler `hid` moves at step `i`. */
  ghost predicate Moves(run: seq<World>, acts: seq<Action>, i: nat, hid: Id) {
    i < |acts| && i + 1 < |run| && acts[i].Resume? && acts[i].hid == hid && hid in run[i].handlers && hid in run[i + 1].handlers
  }

  lemma MoveIs(cfg: Config, run: seq<World>, acts: seq<Action>, i: nat, hid: Id)
    requires IsRun(cfg, run, acts) && Moves(run, acts, i, hid)
    ensures var w := Drawn(Ticked(run[i]), acts[i].choice);
            && Core(cfg, w) && Core(cfg, run[i]) && Past(run[i].handlers, run[i].hist)
            && UsedPast(run[i].handlers, run[i].db, run[i].hist.challenges)
            && hid in w.handlers && !run[i].handlers[hid].Finished? && run[i + 1] == StepHandler(cfg, w, hid, acts[i].choice)
  {
    hide IsRun, Core, Past, Singles, UsedPast, Next, Enabled, Follows, StepHandler;
    StepOfRun(cfg, run, acts, i);
    ResumeIs(cfg, run[i], hid, acts[i].choice);
    KeepTick(cfg, run[i]);
    KeepDrawn(cfg, Ticked(run[i]), acts[i].choice);
  }

  /** A redeeming handler gets the payload exactly when the code is live, no field is missing and
      client and redirect target are the code's own; a live code is its redeemer's for good. */
  lemma RedemptionOutcome(cfg: Config, run: seq<World>, acts: seq<Action>, i: nat, hid: Id,
                          code: Id, clientId: string, redirectUri: string)
    requires IsRun(cfg, run, acts) && Moves(run, acts, i, hid)
    requires run[i].handlers[hid] == ExchangeConsume(code, clientId, redirectUri)
    ensures var live := clientId != "" && redirectUri != "" && Live(run[i].db, CodeKey(code), run[i].now);
            var to := run[i + 1].handlers[hid];
            && (live ==> code in run[i].hist.codes && code in run[i + 1].hist.redeemed && run[i + 1].hist.redeemed[code] == hid)
            && (to.ExchangeFind? <==> live && run[i].hist.codes[code].payload.clientId == clientId
                                           && run[i].hist.codes[code].payload.redirectUri == redirectUri)
            && (to.ExchangeFind? ==> to.code == code && to.payload == run[i].hist.codes[code].payload)
            && (!to.ExchangeFind? ==> to.Finished?)
            && run[i + 1].hist.tokens == run[i].hist.tokens
  {
    hide IsRun, Core, Past, UsedPast, StepHandler, StepExchangeConsume, Live;
    MoveIs(cfg, run, acts, i, hid);
    var w := Drawn(Ticked(run[i]), acts[i].choice);
    StepIsConsume(cfg, w, hid, acts[i].choice);
    if clientId != "" && redirectUri != "" && Live(run[i].db, CodeKey(code), run[i].now) {
      ConsumeLive(cfg, w, hid, code, clientId, redirectUri);
    } else {
      ConsumeDead(w, hid, code, clientId, redirectUri);
    }
  }

  /** A redemption that names the wrong client or redirect target spends the code: no call,
      concurrent or later, gets a token for it. */
  lemma MismatchSpendsCode(cfg: Config, run: seq<World>, acts: seq<Action>, i: nat, j: nat, hid: Id,
                           code: Id, clientId: string, redirectUri: string)
    requires IsRun(cfg, run, acts) && Moves(run, acts, i, hid) && i < j < |run|
    requires run[i].handlers[hid] == ExchangeConsume(code, clientId, redirectUri)
    requires clientId != "" && redirectUri != "" && Live(run[i].db, CodeKey(code), run[i].now)
    requires run[i + 1].handlers[hid].Finished?
    ensures NoTokenFor(run[j].hist.tokens, CodePath, code) && CodeKey(code) !in run[j].db
  {
    hide IsRun, Core, Past, UsedPast, NoTokenFor, Live;
    RedemptionOutcome(cfg, run, acts, i, hid, code, clientId, redirectUri);
    MoveIs(cfg, run, acts, i, hid);
    LiveIsKey(run[i].db, CodeKey(code), run[i].now);
    LiveHasNoToken(cfg, run[i], CodePath, code);
    SpentForGood(cfg, run, acts, i + 1, j, CodePath, code, hid);
  }

  /** A code or ticket still in Redis has no token. */
  lemma LiveHasNoToken(cfg: Config, w: World, path: Path, id: Id)
    requires Core(cfg, w) && path.KeyOf(id) in w.db
    ensures NoTokenFor(w.hist.tokens, path, id)
  {
    hide Core;
    forall t | t in w.hist.tokens ensures !path.Mints(t, id) {
      var n :| 0 <= n < |w.hist.tokens| && w.hist.tokens[n] == t;
      TokenIs(cfg, w, n);
      if path.Mints(t, id) {
        RedeemedIs(cfg, w, path, id);
      }
    }
  }

  /** The same for registration tickets: a call that names the wrong client or redirect target spends
      the ticket, and no call, concurrent or later, gets a token for it. */
  lemma MismatchSpendsTicket(cfg: Config, run: seq<World>, acts: seq<Action>, i: nat, j: nat, hid: Id,
                             ticket: Id, clientId: string, redirectUri: string)
    requires IsRun(cfg, run, acts) && Moves(run, acts, i, hid) && i < j < |run|
    requires run[i].handlers[hid] == TicketConsume(ticket, clientId, redirectUri)
    requires clientId != "" && redirectUri != "" && Live(run[i].db, TicketKey(ticket), run[i].now)
    ensures ticket in run[i].hist.tickets
    ensures var p := run[i].hist.tickets[ticket].payload;
            if p.clientId == clientId && p.redirectUri == redirectUri then run[i + 1].handlers[hid] == TicketSign(ticket, p)
            else NoTokenFor(run[j].hist.tokens, TicketPath, ticket) && TicketKey(ticket) !in run[j].db
  {
    hide IsRun, Core, Past, UsedPast, NoTokenFor, Live, StepHandler, StepTicketConsume;
    MoveIs(cfg, run, acts, i, hid);
    LiveIsKey(run[i].db, TicketKey(ticket), run[i].now);
    LiveHasNoToken(cfg, run[i], TicketPath, ticket);
    var w := Drawn(Ticked(run[i]), acts[i].choice);
    StepIsTicketConsume(cfg, w, hid, acts[i].choice);
    ConsumeLiveTicket(cfg, w, hid, ticket, clientId, redirectUri);
    var p := run[i].hist.tickets[ticket].payload;
    if p.clientId != clientId || p.redirectUri != redirectUri {
      SpentForGood(cfg, run, acts, i + 1, j, TicketPath, ticket, hid);
    }
  }

  lemma StepIsTicketConsume(cfg: Config, w: World, hid: Id, c: Choice)
    requires hid in w.handlers && w.handlers[hid].TicketConsume?
    ensures StepHandler(cfg, w, hid, c)
            == StepTicketConsume(w, hid, w.handlers[hid].code, w.handlers[hid].clientId, w.handlers[hid].redirectUri)
  {
    hide StepTicketConsume;
  }

  lemma ConsumeLiveTicket(cfg: Config, w: World, hid: Id, ticket: Id, clientId: string, redirectUri: string)
    requires Core(cfg, w) && Live(w.db, TicketKey(ticket), w.now) && clientId != "" && redirectUri != ""
    ensures ticket in w.hist.tickets
    ensures var w' := StepTicketConsume(w, hid, ticket, clientId, redirectUri);
            var p := w.hist.tickets[ticket].payload;
            && hid in w'.handlers
            && w'.handlers[hid] == (if p.clientId == clientId && p.redirectUri == redirectUri then TicketSign(ticket, p) else Finished)
            && ticket in w'.hist.redeemedTickets && w'.hist.redeemedTickets[ticket] == hid && w'.hist.tokens == w.hist.tokens
  {
    hide Core, Consumed, Live;
    assert TicketKey(ticket) in w.db by { LiveIsKey(w.db, TicketKey(ticket), w.now); }
    TicketEntryIs(cfg, w, ticket);
    var p := w.hist.tickets[ticket].payload;
    if p.clientId != clientId || p.redirectUri != redirectUri {
    } else {
    }
  }

  lemma TicketEntryIs(cfg: Config, w: World, t: Id)
    requires Core(cfg, w) && TicketKey(t) in w.db
    ensures t in w.hist.tickets && w.db[TicketKey(t)].value == TicketValue(w.hist.tickets[t].payload)
  {
    hide HandlersOK;
    assert EntryOK(w.hist, TicketKey(t), w.db[TicketKey(t)].value);
  }

  // ---------------------------------------------------------------- the live-code invariant

  /** A live code names a row that is there and belongs to the user the code was issued for. */
  lemma LiveCodeNamesItsOwner(cfg: Config, run: seq<World>, acts: seq<Action>, i: nat, code: Id)
    requires IsRun(cfg, run, acts) && i < |run| && Live(run[i].db, CodeKey(code), run[i].now)
    ensures run[i].db[CodeKey(code)].value.CodeValue?
    ensures var p := run[i].db[CodeKey(code)].value.code;
            p.kisUserId != "" && p.authIdentityId in run[i].rows && run[i].rows[p.authIdentityId].user == p.kisUserId
  {
    hide IsRun, Inv, Core;
    RunInv(cfg, run, acts, i);
    InvCore(cfg, run[i]);
    CodeEntryIs(cfg, run[i], code);
    CodeChain(cfg, run[i], code);
  }

  lemma FinderKnows(cfg: Config, w: World, hid: Id)
    requires Core(cfg, w) && hid in w.handlers && w.handlers[hid].ExchangeFind?
    ensures var h := w.handlers[hid];
            h.code in w.hist.redeemed && w.hist.redeemed[h.code] == hid && h.code in w.hist.codes && w.hist.codes[h.code].payload == h.payload
  {
    hide Core;
    HandlerKnows(cfg, w, hid);
  }

  /** Not-found and owner-mismatch cannot happen at the exchange: only revocation rejects. */
  lemma OnlyRevocationRejects(cfg: Config, run: seq<World>, acts: seq<Action>, i: nat, hid: Id)
    requires IsRun(cfg, run, acts) && Moves(run, acts, i, hid) && run[i].handlers[hid].ExchangeFind?
    ensures var p := run[i].handlers[hid].payload;
            && p.authIdentityId in run[i].rows && run[i].rows[p.authIdentityId].user == p.kisUserId
            && (if run[i].rows[p.authIdentityId].status == Active
                then run[i + 1].handlers[hid].ExchangeSign?
                else run[i + 1].handlers[hid].Finished? && run[i + 1].hist.tokens == run[i].hist.tokens
                     && run[i + 1].hist.redeemed == run[i].hist.redeemed)
  {
    hide IsRun, Core, Past, UsedPast, StepHandler, StepExchangeFind;
    MoveIs(cfg, run, acts, i, hid);
    var w := Drawn(Ticked(run[i]), acts[i].choice);
    var h := run[i].handlers[hid];
    FinderKnows(cfg, w, hid);
    CodeChain(cfg, w, h.code);
    FindStep(cfg, w, hid, acts[i].choice, h.code, h.payload);
  }

  lemma FindStep(cfg: Config, w: World, hid: Id, c: Choice, code: Id, p: AuthorizationCodePayload)
    requires hid in w.handlers && w.handlers[hid] == ExchangeFind(code, p) && p.authIdentityId in w.rows
    requires w.rows[p.authIdentityId].user == p.kisUserId
    ensures var w' := StepHandler(cfg, w, hid, c);
            && hid in w'.handlers
            && (if w.rows[p.authIdentityId].status == Active then w'.handlers[hid].ExchangeSign?
                else w'.handlers[hid].Finished? && w'.hist == w.hist)
  {
  }

  /** A redemption that finds the identity revoked spends the code for good. */
  lemma RevocationSpendsCode(cfg: Config, run: seq<World>, acts: seq<Action>, i: nat, j: nat, hid: Id)
    requires IsRun(cfg, run, acts) && Moves(run, acts, i, hid) && i < j < |run| && run[i].handlers[hid].ExchangeFind?
    requires run[i + 1].handlers[hid].Finished?
    ensures var code := run[i].handlers[hid].code;
            NoTokenFor(run[j].hist.tokens, CodePath, code) && CodeKey(code) !in run[j].db
  {
    hide IsRun, Core, Past, UsedPast, NoTokenFor;
    var code := run[i].handlers[hid].code;
    OnlyRevocationRejects(cfg, run, acts, i, hid);
    MoveIs(cfg, run, acts, i, hid);
    FinderKnows(cfg, run[i], hid);
    FinderHasNoToken(cfg, run[i], hid);
    SpentForGood(cfg, run, acts, i + 1, j, CodePath, code, hid);
  }

  lemma FinderHasNoToken(cfg: Config, w: World, hid: Id)
    requires Core(cfg, w) && Past(w.handlers, w.hist) && hid in w.handlers && w.handlers[hid].ExchangeFind?
    ensures NoTokenFor(w.hist.tokens, CodePath, w.handlers[hid].code)
  {
    hide Core, Past, Stage;
    FinderKnows(cfg, w, hid);
    forall t | t in w.hist.tokens ensures !CodePath.Mints(t, w.handlers[hid].code) {
      var n :| 0 <= n < |w.hist.tokens| && w.hist.tokens[n] == t;
      TokenIs(cfg, w, n);
      MinterIsDone(w, t);
    }
  }

  lemma MinterIsDone(w: World, t: Token)
    requires Past(w.handlers, w.hist) && t in w.hist.tokens
    ensures t.minter in w.handlers && w.handlers[t.minter].Finished?
  {
    assert Reached(w.handlers, t.minter, 14);
  }
}
