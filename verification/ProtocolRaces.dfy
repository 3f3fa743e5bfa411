/** Runs in which two requests race: one link ticket that opens two sessions, and one triple linked
    twice at once. */
module ProtocolRaces {
  import opened Wrappers
  import opened Records
  import opened RedisKeyspace
  import opened IdentityTable
  import opened Registry
  import opened Protocol
  import opened ProtocolInvariant
  import opened ProtocolPast
  import opened ProtocolRuns
  import opened ProtocolTraces
  import opened ProtocolTheorems
  import opened ProtocolGuards
  import opened ProtocolScenes
  import opened ServiceSteps

  function With(id: Id): Randoms {
    Randoms(id, 7, 8, id, id, id, id, true, true, Verified("", None, false))
  }

  // ---------------------------------------------------------------- one ticket, two sessions

  const LINKER := map["app" := RegisteredClient(true, ["https://app/cb"], ["link"])]

  function Ticket(exp: int): LinkTicket {
    LinkTicket("user", "nonce", exp)
  }

  function Linking(exp: int): AuthorizeRequest {
    AuthorizeRequest("app", "https://app/cb", "link", "s", Some(Ticket(exp)), None)
  }

  /** In the last second of the ticket. */
  function LastSecond(exp: int): int {
    (exp - 1) * 1000
  }

  /** The lookup and the expiry check of one request. */
  lemma Check(cfg: Config, run: seq<World>, acts: seq<Action>, hid: Id, s: Scene, id: Id, exp: int)
    returns (run': seq<World>, acts': seq<Action>)
    requires On(cfg, run, acts, hid, AuthorizeLookup(Linking(exp)), s, id) && s.clients == LINKER && s.now == LastSecond(exp)
    ensures On(cfg, run', acts', hid, AuthorizeClaim(Linking(exp), Ticket(exp), exp - 1), s, id + 2)
  {
    hide On, ServiceSteps.Moved;
    var q := Linking(exp);
    BeforeIs(cfg, run, acts, hid, AuthorizeLookup(q), s, With(id), id);
    assert Permits(LINKER, "app", "https://app/cb", "link") by {
      assert ["https://app/cb"][0] == "https://app/cb" && ["link"][0] == "link";
    }
    EffectAuthorizeLookup(cfg, Before(run, AuthorizeLookup(q), With(id)), hid, With(id), q);
    run', acts' := Go(cfg, run, acts, hid, AuthorizeLookup(q), s, With(id), id, AuthorizeCheck(q), s.db, s.rows, s.outputs);
    BeforeIs(cfg, run', acts', hid, AuthorizeCheck(q), s, With(id + 1), id + 1);
    EffectAuthorizeCheck(cfg, Before(run', AuthorizeCheck(q), With(id + 1)), hid, With(id + 1), q);
    run', acts' := Go(cfg, run', acts', hid, AuthorizeCheck(q), s, With(id + 1), id + 1,
                      AuthorizeClaim(q, Ticket(exp), exp - 1), s.db, s.rows, s.outputs);
  }

  function Claiming(db: Keyspace, now: int): Keyspace {
    SetEx(db, LinkNonceKey("nonce"), Claimed, 1, now)
  }

  function Opening(db: Keyspace, id: Id, now: int): Keyspace {
    SetEx(db, SessionKey(id), SessionValue(OAuthSession("app", "https://app/cb", "link", 7, 8, "s", None, Some("user"), None)),
          SESSION_TTL_SECONDS, now)
  }

  /** The claim of a free nonce, and the session it opens. */
  lemma ClaimAndSave(cfg: Config, run: seq<World>, acts: seq<Action>, hid: Id, s: Scene, id: Id, exp: int)
    returns (run': seq<World>, acts': seq<Action>)
    requires On(cfg, run, acts, hid, AuthorizeClaim(Linking(exp), Ticket(exp), exp - 1), s, id)
    requires !Live(s.db, LinkNonceKey("nonce"), s.now)
    ensures On(cfg, run', acts', hid, Finished, s.(db := Opening(Claiming(s.db, s.now), id + 1, s.now)), id + 2)
  {
    hide On, ServiceSteps.Moved;
    var q, h := Linking(exp), AuthorizeClaim(Linking(exp), Ticket(exp), exp - 1);
    BeforeIs(cfg, run, acts, hid, h, s, With(id), id);
    EffectAuthorizeClaim(cfg, Before(run, h, With(id)), hid, With(id), q, Ticket(exp), exp - 1);
    var saving, s1 := AuthorizeSave(q, Some("user")), s.(db := Claiming(s.db, s.now));
    run', acts' := Go(cfg, run, acts, hid, h, s, With(id), id, saving, s1.db, s.rows, s.outputs);
    BeforeIs(cfg, run', acts', hid, saving, s1, With(id + 1), id + 1);
    EffectAuthorizeSave(cfg, Before(run', saving, With(id + 1)), hid, With(id + 1), q, Some("user"));
    run', acts' := Go(cfg, run', acts', hid, saving, s1, With(id + 1), id + 1, Finished, Opening(s1.db, id + 1, s.now), s.rows, s.outputs);
  }

  /** Two requests with one ticket, both past the expiry check in its last second; one claims it and
      opens its session at once, the other a second later, when the first claim has lapsed. */
  lemma TwoClaims(cfg: Config, exp: int) returns (run: seq<World>, acts: seq<Action>, s: Scene)
    requires cfg.Valid()
    ensures On(cfg, run, acts, 1, Finished, s, 8) && s.request == Linking(exp) && SessionKey(5) in s.db && SessionKey(7) in s.db
    ensures s.db[SessionKey(5)].value == s.db[SessionKey(7)].value
            == SessionValue(OAuthSession("app", "https://app/cb", "link", 7, 8, "s", None, Some("user"), None))
  {
    hide On;
    var q := Linking(exp);
    var checked := AuthorizeClaim(q, Ticket(exp), exp - 1);
    run, acts := FirstComes(cfg, q, LastSecond(exp), LINKER, map[], 0, 0, AuthorizeLookup(q));
    s := Scene(q, map[], LastSecond(exp), LINKER, map[], map[], map[], []);
    run, acts := Check(cfg, run, acts, 0, s, 0, exp);
    run, acts := Comes(cfg, run, acts, 0, checked, s, 2, 1, AuthorizeLookup(q));
    s := s.(others := s.others[0 := checked]);
    run, acts := Check(cfg, run, acts, 1, s, 2, exp);
    Turn(cfg, run, acts, 1, checked, s, 4, 0);
    s := s.(others := s.others[1 := checked]);
    run, acts := ClaimAndSave(cfg, run, acts, 0, s, 4, exp);
    s := s.(db := Opening(Claiming(s.db, s.now), 5, s.now));
    Turn(cfg, run, acts, 0, Finished, s, 6, 1);
    s := s.(others := s.others[0 := Finished]);
    run, acts := Wait(cfg, run, acts, 1, checked, s, 6, 1000);
    s := s.(now := s.now + 1000);
    run, acts := ClaimAndSave(cfg, run, acts, 1, s, 6, exp);
    s := s.(db := Opening(Claiming(s.db, s.now), 7, s.now));
  }

  /** Handlers wait at the lookup only with requests that came in. */
  lemma {:induction false} LookupsCameIn(cfg: Config, run: seq<World>, acts: seq<Action>, i: nat, k: Id, q: AuthorizeRequest)
    requires IsRun(cfg, run, acts) && i < |run| && forall n :: 0 <= n < |acts| ==> Poses(acts[n], q)
    requires k in run[i].handlers && run[i].handlers[k].AuthorizeLookup?
    ensures run[i].handlers[k].q == q
  {
    hide IsRun, Inv, Next, Enabled, Follows;
    StartOfRun(cfg, run, acts);
    if i > 0 {
      StepOfRun(cfg, run, acts, i - 1);
      LookupFollows(run[i - 1], run[i], acts[i - 1], k);
      if k in run[i - 1].handlers && run[i - 1].handlers[k] == run[i].handlers[k] {
        LookupsCameIn(cfg, run, acts, i - 1, k, q);
      }
    }
  }

  lemma LookupFollows(w: World, w': World, a: Action, k: Id)
    requires Follows(w, w', a) && k in w'.handlers && w'.handlers[k].AuthorizeLookup?
    ensures (k in w.handlers && w.handlers[k] == w'.handlers[k]) || (a.Accept? && a.entry == w'.handlers[k])
  {
    hide Treats, Writes, RowsKept, Sources, IsEntry, Only, Names;
  }

  lemma ClaimCarries(cfg: Config, run: seq<World>, acts: seq<Action>, i: nat, k: Id, q: AuthorizeRequest)
    requires IsRun(cfg, run, acts) && i < |run| && forall n :: 0 <= n < |acts| ==> Poses(acts[n], q)
    requires k in run[i].hist.claims
    ensures q.ticket == Some(run[i].hist.claims[k].ticket)
  {
    hide IsRun, Inv, Core, Permits;
    RunInv(cfg, run, acts, i);
    InvCore(cfg, run[i]);
    ClaimIs(cfg, run[i], k);
    ApprovalIsReal(cfg, run, acts, i, k);
    LookupsCameIn(cfg, run, acts, run[i].hist.approvals[k].at, k, q);
  }

  lemma ClaimIs(cfg: Config, w: World, k: Id)
    requires Core(cfg, w) && k in w.hist.claims
    ensures k in w.hist.approvals && w.hist.approvals[k].q.ticket == Some(w.hist.claims[k].ticket)
  {
    hide HandlersOK, EntriesOK, TokensOK, OriginsOK, CodesOK, TicketsOK, UsesOK, LoginsOK, ChallengesOK, SessionsOK;
  }

  /** What single use excludes happens after the expiry: for every expiry there is a run in which one
      ticket opens two link sessions for its user, the second with a claim made as the ticket expires. */
  lemma TicketOpensTwoSessions(cfg: Config, exp: int) returns (run: seq<World>, acts: seq<Action>, s1: Id, s2: Id)
    requires cfg.Valid()
    ensures IsRun(cfg, run, acts) && |run| == |acts| + 1
    ensures var h := run[|acts|].hist;
            && s1 != s2 && s1 in h.sessions && s2 in h.sessions
            && h.sessions[s1].base.purpose == "link" == h.sessions[s2].base.purpose
            && h.sessions[s1].base.linkKisUserId == Some("user") == h.sessions[s2].base.linkKisUserId
            && h.sessions[s1].creator in h.claims && h.claims[h.sessions[s1].creator].ticket == Ticket(exp)
            && h.sessions[s2].creator in h.claims && h.claims[h.sessions[s2].creator].ticket == Ticket(exp)
  {
    hide On, IsRun, Inv, Core;
    var s: Scene;
    run, acts, s := TwoClaims(cfg, exp);
    s1, s2 := 5, 7;
    Standing(cfg, run, acts, 1, Finished, s, 8);
    RunInv(cfg, run, acts, |acts|);
    InvCore(cfg, run[|acts|]);
    var h := run[|acts|].hist;
    SessionOfEntry(cfg, run[|acts|], 5);
    SessionOfEntry(cfg, run[|acts|], 7);
    ClaimCarries(cfg, run, acts, |acts|, h.sessions[5].creator, Linking(exp));
    ClaimCarries(cfg, run, acts, |acts|, h.sessions[7].creator, Linking(exp));
  }

  lemma SessionOfEntry(cfg: Config, w: World, sid: Id)
    requires Core(cfg, w) && SessionKey(sid) in w.db && w.db[SessionKey(sid)].value.SessionValue?
    ensures sid in w.hist.sessions
    ensures var s := w.db[SessionKey(sid)].value.session;
            && w.hist.sessions[sid].base == s.(codeVerifier := None)
            && (s.purpose == "link" ==> w.hist.sessions[sid].creator in w.hist.claims)
  {
    hide Core;
    SessionCopyIs(cfg, w, sid);
    SessionIs(cfg, w, sid);
  }

  lemma SessionCopyIs(cfg: Config, w: World, sid: Id)
    requires Core(cfg, w) && SessionKey(sid) in w.db
    ensures w.db[SessionKey(sid)].value.SessionValue? && CopyOf(w.hist.sessions, w.hist.verifiers, sid, w.db[SessionKey(sid)].value.session)
  {
    hide HandlersOK, CopyOf;
    assert EntryOK(w.hist, SessionKey(sid), w.db[SessionKey(sid)].value);
  }

  // ---------------------------------------------------------------- one triple, linked twice at once

  const TRIPLE := LinkArgs("google", "sub", "user", None, false)

  lemma Select(cfg: Config, run: seq<World>, acts: seq<Action>, hid: Id, s: Scene, id: Id)
    returns (run': seq<World>, acts': seq<Action>)
    requires On(cfg, run, acts, hid, LinkSelect(FromServer, TRIPLE), s, id) && s.rows == map[]
    ensures On(cfg, run', acts', hid, LinkInsert(FromServer, TRIPLE), s, id + 1)
  {
    hide On, ServiceSteps.Moved;
    var h := LinkSelect(FromServer, TRIPLE);
    BeforeIs(cfg, run, acts, hid, h, s, With(id), id);
    EffectLinkSelect(cfg, Before(run, h, With(id)), hid, With(id), FromServer, TRIPLE);
    run', acts' := Go(cfg, run, acts, hid, h, s, With(id), id, LinkInsert(FromServer, TRIPLE), s.db, s.rows, s.outputs);
  }

  lemma Insert(cfg: Config, run: seq<World>, acts: seq<Action>, hid: Id, s: Scene, id: Id, rows': Table)
    returns (run': seq<World>, acts': seq<Action>)
    requires On(cfg, run, acts, hid, LinkInsert(FromServer, TRIPLE), s, id)
    requires rows' == if Conflicts(s.rows, TRIPLE) then s.rows else Inserted(s.rows, id, TRIPLE)
    ensures On(cfg, run', acts', hid, Finished, s.(rows := rows'), id + 1)
    ensures |acts'| == |acts| + 1 && acts <= acts' && run <= run' && acts'[|acts|].Resume? && acts'[|acts|].hid == hid
  {
    hide On, ServiceSteps.Moved, Conflicts, Inserted;
    var h := LinkInsert(FromServer, TRIPLE);
    BeforeIs(cfg, run, acts, hid, h, s, With(id), id);
    EffectLinkInsert(cfg, Before(run, h, With(id)), hid, With(id), FromServer, TRIPLE);
    run', acts' := Go(cfg, run, acts, hid, h, s, With(id), id, Finished, s.db, rows', s.outputs);
  }

  /** Two calls for one triple make their SELECTs on an empty table; the first inserts it. */
  lemma BothSelect(cfg: Config) returns (run: seq<World>, acts: seq<Action>, s: Scene)
    requires cfg.Valid()
    ensures On(cfg, run, acts, 1, LinkInsert(FromServer, TRIPLE), s, 3) && s.rows == Inserted(map[], 2, TRIPLE)
  {
    hide On;
    var h, inserting := LinkSelect(FromServer, TRIPLE), LinkInsert(FromServer, TRIPLE);
    run, acts := FirstComes(cfg, Linking(0), 0, LINKER, map[], 0, 0, h);
    s := Scene(Linking(0), map[], 0, LINKER, map[], map[], map[], []);
    run, acts := Select(cfg, run, acts, 0, s, 0);
    run, acts := Comes(cfg, run, acts, 0, inserting, s, 1, 1, h);
    s := s.(others := s.others[0 := inserting]);
    run, acts := Select(cfg, run, acts, 1, s, 1);
    Turn(cfg, run, acts, 1, inserting, s, 2, 0);
    s := s.(others := s.others[1 := inserting]);
    var rows := Inserted(s.rows, 2, TRIPLE);
    run, acts := Insert(cfg, run, acts, 0, s, 2, rows);
    s := s.(rows := rows);
    Turn(cfg, run, acts, 0, Finished, s, 3, 1);
    s := s.(others := s.others[0 := Finished]);
  }

  /** A run of two concurrent links of one triple in which the second is answered `already_linked`
      while its own triple is a row. */
  lemma RepeatIsRefused(cfg: Config) returns (run: seq<World>, acts: seq<Action>, id: Id)
    requires cfg.Valid()
    ensures IsRun(cfg, run, acts) && |run| == |acts| + 1 && |acts| > 0
    ensures 1 !in run[|acts| - 1].hist.links && HoldsTriple(run[|acts| - 1].rows, id, TRIPLE)
    ensures 1 in run[|acts|].hist.links && run[|acts|].hist.links[1] == LinkOutcome(TRIPLE, AlreadyLinked)
    ensures HoldsTriple(run[|acts|].rows, id, TRIPLE)
  {
    hide On, IsRun, Inv, Core, Inserted;
    var run1, acts1, s := BothSelect(cfg);
    id := 2;
    InsertedHolds(s.rows);
    Standing(cfg, run1, acts1, 1, LinkInsert(FromServer, TRIPLE), s, 3);
    run, acts := Insert(cfg, run1, acts1, 1, s, 3, s.rows);
    Standing(cfg, run, acts, 1, Finished, s, 4);
    assert run[|acts1|] == run1[|acts1|];
    NotAnswered(cfg, run, acts, |acts1|, 1);
    RacingInsert(cfg, run, acts, |acts1|, 1);
  }

  lemma InsertedHolds(rows: Table)
    requires rows == Inserted(map[], 2, TRIPLE)
    ensures HoldsTriple(rows, 2, TRIPLE) && Conflicts(rows, TRIPLE)
  {
    assert HasKey(rows[2], TRIPLE.provider, TRIPLE.subject);
  }

  /** A call that is about to select or insert has not answered. */
  lemma NotAnswered(cfg: Config, run: seq<World>, acts: seq<Action>, i: nat, hid: Id)
    requires IsRun(cfg, run, acts) && i < |run| && hid in run[i].handlers && Stage(run[i].handlers[hid]) < 5
    ensures hid !in run[i].hist.links
  {
    hide IsRun, Core, UsedPast, Singles, Past, Stage;
    RunInv(cfg, run, acts, i);
    NotYet(run[i], hid);
  }
}
