/** The protocol does what it is for: a run in which a returning user signs in and the client gets a
    token. The theorems about tokens speak of runs that exist. */
module ProtocolWitness {
  import opened Wrappers
  import opened Records
  import opened RedisKeyspace
  import opened IdentityTable
  import opened Registry
  import opened Protocol
  import opened ProtocolInvariant
  import opened ProtocolRuns
  import opened ProtocolTraces
  import opened ProtocolTheorems
  import opened ProtocolScenes
  import opened ServiceSteps

  // The ids of the scenario, in the order they are drawn.
  const ROW: Id := 0
  const SESSION: Id := 2
  const VERIFIER: Id := 3
  const CHALLENGE: Id := 10
  const CODE: Id := 16

  const APP := map["app" := RegisteredClient(true, ["https://app/cb"], ["recovery"])]

  function Users(st: Status): Table {
    map[ROW := Row(ProviderOf(Google), "sub", "user", None, false, st)]
  }

  const ASKED := AuthorizeRequest("app", "https://app/cb", "recovery", "s", None, None)
  const SAVED := OAuthSession("app", "https://app/cb", "recovery", 7, 8, "s", None, None, None)
  const STARTED_SESSION := SAVED.(codeVerifier := Some(VERIFIER))
  const RETURNED := CallbackRequest(true, Some(7), false)
  const WHO := Verified("sub", None, false)
  const VISIT := Visit(Google, SESSION, STARTED_SESSION, WHO)
  const ANSWERED: seq<(Id, Output)> := [(SESSION, CodeOutput)]
  const PAYLOAD := AuthorizationCodePayload("recovery", "app", "user", ROW, "https://app/cb")

  /** What the step that draws `id` is given. */
  function With(id: Id): Randoms {
    Randoms(id, 7, 8, id, id, id, id, true, true, WHO)
  }

  /** The first `n` handlers, all finished. */
  function Done(n: nat): (others: map<Id, Handler>)
    ensures forall k: Id {:trigger k in others} :: k in others <==> k < n
  {
    if n == 0 then map[]
    else
      var before := Done(n - 1);
      before[n - 1 := Finished]
  }

  /** Handlers before `hid` have finished; the row has status `st` throughout. */
  function Scn(hid: Id, st: Status, db: Keyspace, outputs: seq<(Id, Output)>): Scene {
    Scene(ASKED, Users(st), 0, APP, Users(st), db, Done(hid), outputs)
  }

  // ---------------------------------------------------------------- Redis along the way

  function RecordOf(cfg: Config): ChallengeRecord {
    ChallengeRecord("recovery", "app", Some("user"), Some(ROW), 0, cfg.challengeMaxAttempts, false)
  }

  function UsedRecord(cfg: Config): ChallengeRecord {
    RecordOf(cfg).(used := true)
  }

  function Authorized(): Keyspace {
    SetEx(map[], SessionKey(SESSION), SessionValue(SAVED), SESSION_TTL_SECONDS, 0)
  }

  function Started(): Keyspace {
    SetEx(Authorized(), SessionKey(SESSION), SessionValue(STARTED_SESSION), SESSION_TTL_SECONDS, 0)
  }

  function Challenged(cfg: Config): Keyspace {
    SetEx(Started(), ChallengeKey(CHALLENGE), ChallengeValue(RecordOf(cfg)), cfg.challengeTtlSeconds, 0)
  }

  function Closed(cfg: Config): Keyspace {
    Del(Challenged(cfg), SessionKey(SESSION))
  }

  function Confirmed(cfg: Config): Keyspace {
    SetEx(Closed(cfg), ChallengeKey(CHALLENGE), ChallengeValue(UsedRecord(cfg)), cfg.challengeTtlSeconds, 0)
  }

  function Issued(cfg: Config): Keyspace {
    SetEx(Confirmed(cfg), CodeKey(CODE), CodeValue(PAYLOAD), cfg.authCodeTtlSeconds, 0)
  }

  // ---------------------------------------------------------------- the scenario, step by step

  lemma Look(cfg: Config, st: Status, run: seq<World>, acts: seq<Action>) returns (run': seq<World>, acts': seq<Action>)
    requires On(cfg, run, acts, 0, AuthorizeLookup(ASKED), Scn(0, st, map[], []), 1)
    ensures On(cfg, run', acts', 0, AuthorizeSave(ASKED, None), Scn(0, st, map[], []), 1 + 1)
  {
    hide On, Moved;
    var h, s := AuthorizeLookup(ASKED), Scn(0, st, map[], []);
    BeforeIs(cfg, run, acts, 0, h, s, With(1), 1);
    var v := Before(run, h, With(1));
    assert Permits(APP, "app", "https://app/cb", "recovery") by {
      assert ["https://app/cb"][0] == "https://app/cb" && ["recovery"][0] == "recovery";
    }
    assert "recovery"[0] != "link"[0];
    EffectAuthorizeLookup(cfg, v, 0, With(1), ASKED);
    run', acts' := Go(cfg, run, acts, 0, h, s, With(1), 1, AuthorizeSave(ASKED, None), map[], s.rows, s.outputs);
  }

  lemma Save(cfg: Config, st: Status, run: seq<World>, acts: seq<Action>) returns (run': seq<World>, acts': seq<Action>)
    requires On(cfg, run, acts, 0, AuthorizeSave(ASKED, None), Scn(0, st, map[], []), SESSION)
    ensures On(cfg, run', acts', 0, Finished, Scn(0, st, Authorized(), []), SESSION + 1)
  {
    hide On, Moved;
    var h, s := AuthorizeSave(ASKED, None), Scn(0, st, map[], []);
    BeforeIs(cfg, run, acts, 0, h, s, With(SESSION), SESSION);
    var v := Before(run, h, With(SESSION));
    EffectAuthorizeSave(cfg, v, 0, With(SESSION), ASKED, None);
    run', acts' := Go(cfg, run, acts, 0, h, s, With(SESSION), SESSION, Finished, Authorized(), s.rows, s.outputs);
  }

  lemma ReadStart(cfg: Config, st: Status, run: seq<World>, acts: seq<Action>) returns (run': seq<World>, acts': seq<Action>)
    requires On(cfg, run, acts, 1, StartGet(Google, SESSION), Scn(1, st, Authorized(), []), VERIFIER)
    ensures On(cfg, run', acts', 1, StartTtl(SESSION, STARTED_SESSION), Scn(1, st, Authorized(), []), VERIFIER + 1)
  {
    hide On, Moved;
    var h, s := StartGet(Google, SESSION), Scn(1, st, Authorized(), []);
    BeforeIs(cfg, run, acts, 1, h, s, With(VERIFIER), VERIFIER);
    var v := Before(run, h, With(VERIFIER));
    EffectStartGet(cfg, v, 1, With(VERIFIER), Google, SESSION);
    run', acts' := Go(cfg, run, acts, 1,
                      h, s, With(VERIFIER), VERIFIER, StartTtl(SESSION, STARTED_SESSION), Authorized(), s.rows, s.outputs);
  }

  lemma ReadTtl(cfg: Config, st: Status, run: seq<World>, acts: seq<Action>) returns (run': seq<World>, acts': seq<Action>)
    requires On(cfg, run, acts, 1, StartTtl(SESSION, STARTED_SESSION), Scn(1, st, Authorized(), []), 4)
    ensures On(cfg, run', acts', 1, StartSave(SESSION, STARTED_SESSION, 600), Scn(1, st, Authorized(), []), 4 + 1)
  {
    hide On, Moved;
    var h, s := StartTtl(SESSION, STARTED_SESSION), Scn(1, st, Authorized(), []);
    BeforeIs(cfg, run, acts, 1, h, s, With(4), 4);
    var v := Before(run, h, With(4));
    EffectStartTtl(cfg, v, 1, With(4), SESSION, STARTED_SESSION);
    run', acts' := Go(cfg, run, acts, 1, h, s, With(4), 4, StartSave(SESSION, STARTED_SESSION, 600), Authorized(), s.rows, s.outputs);
  }

  lemma SaveVerifier(cfg: Config, st: Status, run: seq<World>, acts: seq<Action>) returns (run': seq<World>, acts': seq<Action>)
    requires On(cfg, run, acts, 1, StartSave(SESSION, STARTED_SESSION, 600), Scn(1, st, Authorized(), []), 5)
    ensures On(cfg, run', acts', 1, Finished, Scn(1, st, Started(), []), 5 + 1)
  {
    hide On, Moved;
    var h, s := StartSave(SESSION, STARTED_SESSION, 600), Scn(1, st, Authorized(), []);
    BeforeIs(cfg, run, acts, 1, h, s, With(5), 5);
    var v := Before(run, h, With(5));
    EffectStartSave(cfg, v, 1, With(5), SESSION, STARTED_SESSION, 600);
    run', acts' := Go(cfg, run, acts, 1, h, s, With(5), 5, Finished, Started(), s.rows, s.outputs);
  }

  lemma ReadCallback(cfg: Config, st: Status, run: seq<World>, acts: seq<Action>) returns (run': seq<World>, acts': seq<Action>)
    requires On(cfg, run, acts, 2, CallbackGet(Google, SESSION, RETURNED), Scn(2, st, Started(), []), 6)
    ensures On(cfg, run', acts', 2, CallbackVerify(Google, SESSION, STARTED_SESSION), Scn(2, st, Started(), []), 6 + 1)
  {
    hide On, Moved;
    var h, s := CallbackGet(Google, SESSION, RETURNED), Scn(2, st, Started(), []);
    BeforeIs(cfg, run, acts, 2, h, s, With(6), 6);
    var v := Before(run, h, With(6));
    EffectCallbackGet(cfg, v, 2, With(6), Google, SESSION, RETURNED);
    run', acts' := Go(cfg, run, acts, 2, h, s, With(6), 6, CallbackVerify(Google, SESSION, STARTED_SESSION), Started(), s.rows, s.outputs);
  }

  lemma VerifyIdentity(cfg: Config, st: Status, run: seq<World>, acts: seq<Action>) returns (run': seq<World>, acts': seq<Action>)
    requires On(cfg, run, acts, 2, CallbackVerify(Google, SESSION, STARTED_SESSION), Scn(2, st, Started(), []), 7)
    ensures On(cfg, run', acts', 2, FindIdentity(VISIT), Scn(2, st, Started(), []), 7 + 1)
  {
    hide On, Moved;
    var h, s := CallbackVerify(Google, SESSION, STARTED_SESSION), Scn(2, st, Started(), []);
    BeforeIs(cfg, run, acts, 2, h, s, With(7), 7);
    var v := Before(run, h, With(7));
    assert "recovery"[0] != "link"[0];
    EffectCallbackVerify(cfg, v, 2, With(7), Google, SESSION, STARTED_SESSION);
    run', acts' := Go(cfg, run, acts, 2, h, s, With(7), 7, FindIdentity(VISIT), Started(), s.rows, s.outputs);
  }

  lemma FindUser(cfg: Config, st: Status, run: seq<World>, acts: seq<Action>) returns (run': seq<World>, acts': seq<Action>)
    requires On(cfg, run, acts, 2, FindIdentity(VISIT), Scn(2, st, Started(), []), 8)
    ensures On(cfg, run', acts', 2, Touch(VISIT, ROW, "user"), Scn(2, st, Started(), []), 8 + 1)
  {
    hide On, Moved, ProviderOf;
    var h, s := FindIdentity(VISIT), Scn(2, st, Started(), []);
    BeforeIs(cfg, run, acts, 2, h, s, With(8), 8);
    var v := Before(run, h, With(8));
    FindByKeyIs(Users(st), ProviderOf(Google), "sub", ROW);
    assert "recovery"[2] != "registration"[2];
    EffectFindIdentity(cfg, v, 2, With(8), VISIT);
    run', acts' := Go(cfg, run, acts, 2, h, s, With(8), 8, Touch(VISIT, ROW, "user"), Started(), s.rows, s.outputs);
  }

  lemma TouchUser(cfg: Config, st: Status, run: seq<World>, acts: seq<Action>) returns (run': seq<World>, acts': seq<Action>)
    requires On(cfg, run, acts, 2, Touch(VISIT, ROW, "user"), Scn(2, st, Started(), []), 9)
    ensures On(cfg, run', acts', 2, CreateChallenge(VISIT, RecordOf(cfg)), Scn(2, st, Started(), []), 9 + 1)
  {
    hide On, Moved;
    var h, s := Touch(VISIT, ROW, "user"), Scn(2, st, Started(), []);
    BeforeIs(cfg, run, acts, 2, h, s, With(9), 9);
    var v := Before(run, h, With(9));
    EffectTouch(cfg, v, 2, With(9), VISIT, ROW, "user");
    run', acts' := Go(cfg, run, acts, 2, h, s, With(9), 9, CreateChallenge(VISIT, RecordOf(cfg)), Started(), s.rows, s.outputs);
  }

  lemma Challenge(cfg: Config, st: Status, run: seq<World>, acts: seq<Action>) returns (run': seq<World>, acts': seq<Action>)
    requires On(cfg, run, acts, 2, CreateChallenge(VISIT, RecordOf(cfg)), Scn(2, st, Started(), []), CHALLENGE)
    ensures On(cfg, run', acts', 2, ReturnClose(VISIT, CHALLENGE), Scn(2, st, Challenged(cfg), []), CHALLENGE + 1)
  {
    hide On, Moved, RecordOf;
    var h, s := CreateChallenge(VISIT, RecordOf(cfg)), Scn(2, st, Started(), []);
    BeforeIs(cfg, run, acts, 2, h, s, With(CHALLENGE), CHALLENGE);
    var v := Before(run, h, With(CHALLENGE));
    assert "recovery"[0] != "link"[0];
    EffectCreateChallenge(cfg, v, 2, With(CHALLENGE), VISIT, RecordOf(cfg));
    run', acts' := Go(cfg, run, acts, 2,
                      h, s, With(CHALLENGE), CHALLENGE, ReturnClose(VISIT, CHALLENGE), Challenged(cfg), s.rows, s.outputs);
  }

  lemma CloseSession(cfg: Config, st: Status, run: seq<World>, acts: seq<Action>) returns (run': seq<World>, acts': seq<Action>)
    requires On(cfg, run, acts, 2, ReturnClose(VISIT, CHALLENGE), Scn(2, st, Challenged(cfg), []), 11)
    ensures On(cfg, run', acts', 2, ConfirmGet(VISIT, CHALLENGE), Scn(2, st, Closed(cfg), []), 11 + 1)
  {
    hide On, Moved, Challenged;
    var h, s := ReturnClose(VISIT, CHALLENGE), Scn(2, st, Challenged(cfg), []);
    BeforeIs(cfg, run, acts, 2, h, s, With(11), 11);
    var v := Before(run, h, With(11));
    EffectReturnClose(cfg, v, 2, With(11), VISIT, CHALLENGE);
    run', acts' := Go(cfg, run, acts, 2, h, s, With(11), 11, ConfirmGet(VISIT, CHALLENGE), Closed(cfg), s.rows, s.outputs);
  }

  lemma Confirm(cfg: Config, st: Status, run: seq<World>, acts: seq<Action>) returns (run': seq<World>, acts': seq<Action>)
    requires On(cfg, run, acts, 2, ConfirmGet(VISIT, CHALLENGE),
               Scn(2, st, Closed(cfg), []), 12) && cfg.Valid() && cfg.challengeMaxAttempts >= 1
    ensures On(cfg, run', acts', 2, MarkGet(VISIT, CHALLENGE, RecordOf(cfg)), Scn(2, st, Closed(cfg), []), 12 + 1)
  {
    hide On, Moved, Closed;
    var h, s := ConfirmGet(VISIT, CHALLENGE), Scn(2, st, Closed(cfg), []);
    BeforeIs(cfg, run, acts, 2, h, s, With(12), 12);
    var v := Before(run, h, With(12));
    ChallengeIsThere(cfg);
    assert ReadChallenge(v, CHALLENGE) == Some(RecordOf(cfg));
    EffectConfirmGet(cfg, v, 2, With(12), VISIT, CHALLENGE);
    run', acts' := Go(cfg, run, acts, 2, h, s, With(12), 12, MarkGet(VISIT, CHALLENGE, RecordOf(cfg)), Closed(cfg), s.rows, s.outputs);
  }

  lemma ReadMark(cfg: Config, st: Status, run: seq<World>, acts: seq<Action>) returns (run': seq<World>, acts': seq<Action>)
    requires On(cfg, run, acts, 2, MarkGet(VISIT, CHALLENGE, RecordOf(cfg)), Scn(2, st, Closed(cfg), []), 13) && cfg.Valid()
    ensures On(cfg, run', acts', 2, MarkTtl(VISIT, CHALLENGE, RecordOf(cfg), UsedRecord(cfg)), Scn(2, st, Closed(cfg), []), 13 + 1)
  {
    hide On, Moved, Closed;
    var h, s := MarkGet(VISIT, CHALLENGE, RecordOf(cfg)), Scn(2, st, Closed(cfg), []);
    BeforeIs(cfg, run, acts, 2, h, s, With(13), 13);
    var v := Before(run, h, With(13));
    ChallengeIsThere(cfg);
    assert ReadChallenge(v, CHALLENGE) == Some(RecordOf(cfg));
    EffectMarkGet(cfg, v, 2, With(13), VISIT, CHALLENGE, RecordOf(cfg));
    run', acts' := Go(cfg, run, acts, 2,
                      h, s, With(13), 13, MarkTtl(VISIT, CHALLENGE, RecordOf(cfg), UsedRecord(cfg)), Closed(cfg), s.rows, s.outputs);
  }

  lemma ReadMarkTtl(cfg: Config, st: Status, run: seq<World>, acts: seq<Action>) returns (run': seq<World>, acts': seq<Action>)
    requires On(cfg, run, acts, 2, MarkTtl(VISIT, CHALLENGE, RecordOf(cfg), UsedRecord(cfg)),
               Scn(2, st, Closed(cfg), []), 14) && cfg.Valid()
    ensures On(cfg, run', acts', 2, MarkSave(VISIT, CHALLENGE, RecordOf(cfg), UsedRecord(cfg), cfg.challengeTtlSeconds),
               Scn(2, st, Closed(cfg), []), 14 + 1)
  {
    hide On, Moved, Closed;
    var h, s := MarkTtl(VISIT, CHALLENGE, RecordOf(cfg), UsedRecord(cfg)), Scn(2, st, Closed(cfg), []);
    BeforeIs(cfg, run, acts, 2, h, s, With(14), 14);
    var v := Before(run, h, With(14));
    ChallengeIsThere(cfg);
    EffectMarkTtl(cfg, v, 2, With(14), VISIT, CHALLENGE, RecordOf(cfg), UsedRecord(cfg));
    run', acts' := Go(cfg, run, acts, 2,
                      h, s, With(14), 14, MarkSave(VISIT, CHALLENGE, RecordOf(cfg), UsedRecord(cfg), cfg.challengeTtlSeconds),
                      Closed(cfg), s.rows, s.outputs);
  }

  lemma SaveMark(cfg: Config, st: Status, run: seq<World>, acts: seq<Action>) returns (run': seq<World>, acts': seq<Action>)
    requires On(cfg, run, acts, 2, MarkSave(VISIT, CHALLENGE, RecordOf(cfg), UsedRecord(cfg), cfg.challengeTtlSeconds),
               Scn(2, st, Closed(cfg), []), 15)
    ensures On(cfg, run', acts', 2, IssueCode(VISIT, CHALLENGE, RecordOf(cfg)), Scn(2, st, Confirmed(cfg), []), 15 + 1)
  {
    hide On, Moved, Closed;
    var h, s := MarkSave(VISIT, CHALLENGE, RecordOf(cfg), UsedRecord(cfg), cfg.challengeTtlSeconds), Scn(2, st, Closed(cfg), []);
    BeforeIs(cfg, run, acts, 2, h, s, With(15), 15);
    var v := Before(run, h, With(15));
    EffectMarkSave(cfg, v, 2, With(15), VISIT, CHALLENGE, RecordOf(cfg), UsedRecord(cfg), cfg.challengeTtlSeconds);
    run', acts' := Go(cfg, run, acts, 2, h, s, With(15), 15, IssueCode(VISIT, CHALLENGE, RecordOf(cfg)), Confirmed(cfg), s.rows, s.outputs);
  }

  lemma Issue(cfg: Config, st: Status, run: seq<World>, acts: seq<Action>) returns (run': seq<World>, acts': seq<Action>)
    requires On(cfg, run, acts, 2, IssueCode(VISIT, CHALLENGE, RecordOf(cfg)), Scn(2, st, Confirmed(cfg), []), CODE)
    ensures On(cfg, run', acts', 2, Finished, Scn(2, st, Issued(cfg), ANSWERED), CODE + 1)
  {
    hide On, Moved, Confirmed;
    var h, s := IssueCode(VISIT, CHALLENGE, RecordOf(cfg)), Scn(2, st, Confirmed(cfg), []);
    BeforeIs(cfg, run, acts, 2, h, s, With(CODE), CODE);
    EffectIssueCode(cfg, Before(run, h, With(CODE)), 2, With(CODE), VISIT, CHALLENGE, RecordOf(cfg));
    assert s.outputs + ANSWERED == ANSWERED;
    run', acts' := Go(cfg, run, acts, 2, h, s, With(CODE), CODE, Finished, Issued(cfg), s.rows, s.outputs + ANSWERED);
  }

  lemma Consume(cfg: Config, st: Status, run: seq<World>, acts: seq<Action>) returns (run': seq<World>, acts': seq<Action>)
    requires On(cfg, run, acts, 3, ExchangeConsume(CODE, "app", "https://app/cb"), Scn(3, st, Issued(cfg), ANSWERED), 17) && cfg.Valid()
    ensures On(cfg, run', acts', 3, ExchangeFind(CODE, PAYLOAD), Scn(3, st, Consumed(Issued(cfg), CodeKey(CODE), 0), ANSWERED), 17 + 1)
  {
    hide On, Moved, Confirmed, Consumed;
    var h, s := ExchangeConsume(CODE, "app", "https://app/cb"), Scn(3, st, Issued(cfg), ANSWERED);
    BeforeIs(cfg, run, acts, 3, h, s, With(17), 17);
    var v := Before(run, h, With(17));
    EffectExchangeConsume(cfg, v, 3, With(17), CODE, "app", "https://app/cb");
    run', acts' := Go(cfg, run, acts, 3,
                      h, s, With(17), 17, ExchangeFind(CODE, PAYLOAD), Consumed(Issued(cfg), CodeKey(CODE), 0), s.rows, s.outputs);
  }

  /** The challenge is live, unused, and has all its seconds left. */
  lemma ChallengeIsThere(cfg: Config)
    requires cfg.Valid()
    ensures Live(Closed(cfg), ChallengeKey(CHALLENGE), 0) && Closed(cfg)[ChallengeKey(CHALLENGE)].value == ChallengeValue(RecordOf(cfg))
    ensures TtlReply(Closed(cfg), ChallengeKey(CHALLENGE), 0) == cfg.challengeTtlSeconds
  {
  }

  /** The exchange finds the row active. */
  lemma FindRow(cfg: Config, run: seq<World>, acts: seq<Action>) returns (run': seq<World>, acts': seq<Action>, foundAt: nat)
    requires On(cfg, run, acts, 3, ExchangeFind(CODE, PAYLOAD), Scn(3, Active, Consumed(Issued(cfg), CodeKey(CODE), 0), ANSWERED), 18)
    ensures On(cfg, run', acts', 3, ExchangeSign(CODE, PAYLOAD, None, false, foundAt),
               Scn(3, Active, Consumed(Issued(cfg), CodeKey(CODE), 0), ANSWERED), 19)
  {
    hide On, Moved, Issued, Consumed, Index;
    var h, s := ExchangeFind(CODE, PAYLOAD), Scn(3, Active, Consumed(Issued(cfg), CodeKey(CODE), 0), ANSWERED);
    BeforeIs(cfg, run, acts, 3, h, s, With(18), 18);
    var v := Before(run, h, With(18));
    EffectExchangeFind(cfg, v, 3, With(18), CODE, PAYLOAD);
    foundAt := Index(v);
    run', acts' := Go(cfg, run, acts, 3, h, s, With(18), 18, ExchangeSign(CODE, PAYLOAD, None, false, foundAt), s.db, s.rows, s.outputs);
  }

  /** The exchange finds the row revoked. */
  lemma RejectRow(cfg: Config, run: seq<World>, acts: seq<Action>) returns (run': seq<World>, acts': seq<Action>)
    requires On(cfg, run, acts, 3, ExchangeFind(CODE, PAYLOAD), Scn(3, Revoked, Consumed(Issued(cfg), CodeKey(CODE), 0), ANSWERED), 18)
    ensures On(cfg, run', acts', 3, Finished, Scn(3, Revoked, Consumed(Issued(cfg), CodeKey(CODE), 0), ANSWERED), 19)
    ensures |acts'| == |acts| + 1 && run <= run'
  {
    hide On, Moved, Issued, Consumed, Index;
    var h, s := ExchangeFind(CODE, PAYLOAD), Scn(3, Revoked, Consumed(Issued(cfg), CodeKey(CODE), 0), ANSWERED);
    BeforeIs(cfg, run, acts, 3, h, s, With(18), 18);
    EffectExchangeFind(cfg, Before(run, h, With(18)), 3, With(18), CODE, PAYLOAD);
    run', acts' := Go(cfg, run, acts, 3, h, s, With(18), 18, Finished, s.db, s.rows, s.outputs);
  }

  /** The token is signed. */
  lemma SignIt(cfg: Config, run: seq<World>, acts: seq<Action>, db: Keyspace, foundAt: nat)
    returns (run': seq<World>, acts': seq<Action>, t: Token)
    requires On(cfg, run, acts, 3, ExchangeSign(CODE, PAYLOAD, None, false, foundAt), Scn(3, Active, db, ANSWERED), 19)
    ensures IsRun(cfg, run', acts') && |run'| == |acts'| + 1 && run'[|acts'|].hist.tokens == [t]
    ensures t.AuthToken? && t.code == CODE && t.subject == "user" && t.audience == "app" && t.purpose == "recovery" && t.identity == ROW
  {
    hide On, Moved, IsRun, Index, Mints;
    var h, s := ExchangeSign(CODE, PAYLOAD, None, false, foundAt), Scn(3, Active, db, ANSWERED);
    BeforeIs(cfg, run, acts, 3, h, s, With(19), 19);
    var v := Before(run, h, With(19));
    EffectExchangeSign(cfg, v, 3, With(19), CODE, PAYLOAD, None, false, foundAt);
    t := AuthToken(CODE, 3, "user", "app", "recovery", ROW, "https://app/cb", None, false, foundAt, Index(v));
    run', acts' := GoMinting(cfg, run, acts, 3, h, s, With(19), 19, t);
  }

  /** A start that has read its session and not yet written it back. */
  lemma ToStart(cfg: Config, st: Status) returns (run: seq<World>, acts: seq<Action>)
    requires cfg.Valid()
    ensures On(cfg, run, acts, 1, StartSave(SESSION, STARTED_SESSION, 600), Scn(1, st, Authorized(), []), 5)
  {
    hide On, Started, Authorized;
    run, acts := FirstComes(cfg, ASKED, 0, APP, Users(st), 1, 0, AuthorizeLookup(ASKED));
    SceneStarts(st);
    run, acts := Look(cfg, st, run, acts);
    run, acts := Save(cfg, st, run, acts);
    run, acts := Comes(cfg, run, acts, 0, Finished, Scn(0, st, Authorized(), []), 3, 1, StartGet(Google, SESSION));
    SceneGoesOn(0, st, Authorized(), []);
    run, acts := ReadStart(cfg, st, run, acts);
    run, acts := ReadTtl(cfg, st, run, acts);
  }

  lemma ToSession(cfg: Config, st: Status) returns (run: seq<World>, acts: seq<Action>)
    requires cfg.Valid()
    ensures On(cfg, run, acts, 2, CallbackGet(Google, SESSION, RETURNED), Scn(2, st, Started(), []), 6)
  {
    hide On, Started, Authorized;
    run, acts := ToStart(cfg, st);
    run, acts := SaveVerifier(cfg, st, run, acts);
    run, acts := Comes(cfg, run, acts, 1, Finished, Scn(1, st, Started(), []), 6, 2, CallbackGet(Google, SESSION, RETURNED));
    SceneGoesOn(1, st, Started(), []);
  }

  lemma SceneStarts(st: Status)
    ensures Scene(ASKED, Users(st), 0, APP, Users(st), map[], map[], []) == Scn(0, st, map[], [])
  {
  }

  lemma SceneGoesOn(hid: Id, st: Status, db: Keyspace, outputs: seq<(Id, Output)>)
    ensures var s := Scn(hid, st, db, outputs); s.(others := s.others[hid := Finished]) == Scn(hid + 1, st, db, outputs)
  {
  }

  lemma ToCode(cfg: Config, st: Status) returns (run: seq<World>, acts: seq<Action>)
    requires cfg.Valid() && cfg.challengeMaxAttempts >= 1
    ensures On(cfg, run, acts, 2, Finished, Scn(2, st, Issued(cfg), ANSWERED), 17)
  {
    hide On, Started, Challenged, Closed, Confirmed, Issued, RecordOf;
    run, acts := ToSession(cfg, st);
    run, acts := ReadCallback(cfg, st, run, acts);
    run, acts := VerifyIdentity(cfg, st, run, acts);
    run, acts := FindUser(cfg, st, run, acts);
    run, acts := TouchUser(cfg, st, run, acts);
    run, acts := Challenge(cfg, st, run, acts);
    run, acts := CloseSession(cfg, st, run, acts);
    run, acts := Confirm(cfg, st, run, acts);
    run, acts := ReadMark(cfg, st, run, acts);
    run, acts := ReadMarkTtl(cfg, st, run, acts);
    run, acts := SaveMark(cfg, st, run, acts);
    run, acts := Issue(cfg, st, run, acts);
  }

  lemma ToExchange(cfg: Config, st: Status) returns (run: seq<World>, acts: seq<Action>)
    requires cfg.Valid() && cfg.challengeMaxAttempts >= 1
    ensures On(cfg, run, acts, 3, ExchangeFind(CODE, PAYLOAD), Scn(3, st, Consumed(Issued(cfg), CodeKey(CODE), 0), ANSWERED), 18)
  {
    hide On, Issued, Consumed;
    run, acts := ToCode(cfg, st);
    run, acts := Comes(cfg, run, acts, 2, Finished, Scn(2, st, Issued(cfg), ANSWERED), 17, 3, ExchangeConsume(CODE, "app", "https://app/cb"));
    SceneGoesOn(2, st, Issued(cfg), ANSWERED);
    run, acts := Consume(cfg, st, run, acts);
  }

  /** Under any configuration that allows an attempt there is a run in which a returning user's
      sign-in ends in a token for that user and client. */
  lemma SignInEndsInAToken(cfg: Config) returns (run: seq<World>, acts: seq<Action>, t: Token)
    requires cfg.Valid() && cfg.challengeMaxAttempts >= 1
    ensures IsRun(cfg, run, acts) && |run| == |acts| + 1 && run[|acts|].hist.tokens == [t]
    ensures t.AuthToken? && t.code == CODE && t.subject == "user" && t.audience == "app" && t.purpose == "recovery" && t.identity == ROW
  {
    hide On, Issued, Consumed, IsRun;
    run, acts := ToExchange(cfg, Active);
    var foundAt: nat;
    run, acts, foundAt := FindRow(cfg, run, acts);
    run, acts, t := SignIt(cfg, run, acts, Consumed(Issued(cfg), CodeKey(CODE), 0), foundAt);
  }

  // ---------------------------------------------------------------- a revoked identity

  /** Nobody changes a status in these runs. */
  lemma {:induction false} RevokedThroughout(cfg: Config, run: seq<World>, acts: seq<Action>, i: nat)
    requires IsRun(cfg, run, acts) && |run| == |acts| + 1 && i <= |acts|
    requires forall k :: 0 <= k < |acts| ==> !acts[k].ChangeStatus?
    requires run[0].rows == Users(Revoked)
    ensures ROW in run[i].rows && run[i].rows[ROW].status == Revoked
  {
    hide IsRun;
    if i > 0 {
      RevokedThroughout(cfg, run, acts, i - 1);
      StatusChangesOutside(cfg, run, acts, i - 1, ROW);
    }
  }

  /** The code of a handler that is looking for its row. */
  lemma FinderOfRun(cfg: Config, run: seq<World>, acts: seq<Action>, hid: Id)
    requires IsRun(cfg, run, acts) && |run| == |acts| + 1
    requires hid in run[|acts|].handlers && run[|acts|].handlers[hid].ExchangeFind?
    ensures var h := run[|acts|].handlers[hid];
            h.code in run[|acts|].hist.codes && run[|acts|].hist.codes[h.code].payload == h.payload
  {
    hide IsRun, Inv, Core;
    RunInv(cfg, run, acts, |acts|);
    InvCore(cfg, run[|acts|]);
    FinderKnows(cfg, run[|acts|], hid);
  }

  /** The callback does not look at the status: a run in which the identity is revoked from beginning to
      end and the callback still answers with a code for it. The exchange refuses the code. */
  lemma RevokedSignInGetsACode(cfg: Config) returns (run: seq<World>, acts: seq<Action>)
    requires cfg.Valid() && cfg.challengeMaxAttempts >= 1
    ensures IsRun(cfg, run, acts) && |run| == |acts| + 1 && |acts| > 0
    ensures forall i {:trigger run[i]} :: 0 <= i < |run| ==> ROW in run[i].rows && run[i].rows[ROW].status == Revoked
    ensures var h := run[|acts| - 1].hist;
            h.outputs == [(SESSION, CodeOutput)] && CODE in h.codes && h.codes[CODE].payload.authIdentityId == ROW
    ensures 3 in run[|acts| - 1].handlers && run[|acts| - 1].handlers[3] == ExchangeFind(CODE, PAYLOAD)
    ensures 3 in run[|acts|].handlers && run[|acts|].handlers[3].Finished? && run[|acts|].hist.tokens == []
  {
    hide On, Issued, Consumed, IsRun;
    var run1, acts1 := ToExchange(cfg, Revoked);
    var s := Scn(3, Revoked, Consumed(Issued(cfg), CodeKey(CODE), 0), ANSWERED);
    Standing(cfg, run1, acts1, 3, ExchangeFind(CODE, PAYLOAD), s, 18);
    FinderOfRun(cfg, run1, acts1, 3);
    run, acts := RejectRow(cfg, run1, acts1);
    Standing(cfg, run, acts, 3, Finished, s, 19);
    assert run[|acts| - 1] == run1[|acts1|];
    forall i {:trigger run[i]} | 0 <= i < |run| ensures ROW in run[i].rows && run[i].rows[ROW].status == Revoked {
      RevokedThroughout(cfg, run, acts, i);
    }
  }

  // ---------------------------------------------------------------- a session answered twice

  const CANCELLED := CallbackRequest(false, Some(7), true)

  /** A cancelled callback: read, delete, redirect with an error. */
  lemma Cancel(cfg: Config, run: seq<World>, acts: seq<Action>, hid: Id, s: Scene, id: Id, stored: OAuthSession)
    returns (run': seq<World>, acts': seq<Action>)
    requires On(cfg, run, acts, hid, CallbackGet(Google, SESSION, CANCELLED), s, id)
    requires Get(s.db, SessionKey(SESSION), s.now) == Some(SessionValue(stored)) && stored.state == 7
    ensures On(cfg, run', acts', hid, Finished,
               s.(db := Del(s.db, SessionKey(SESSION)), outputs := s.outputs + [(SESSION, ErrorOutput)]), id + 2)
  {
    hide On, Moved, Get, Del;
    var asked, closing := CallbackGet(Google, SESSION, CANCELLED), CloseAndEnd(SESSION, true);
    BeforeIs(cfg, run, acts, hid, asked, s, With(id), id);
    EffectCallbackGet(cfg, Before(run, asked, With(id)), hid, With(id), Google, SESSION, CANCELLED);
    run', acts' := Go(cfg, run, acts, hid, asked, s, With(id), id, closing, s.db, s.rows, s.outputs);
    BeforeIs(cfg, run', acts', hid, closing, s, With(id + 1), id + 1);
    EffectCloseAndEnd(cfg, Before(run', closing, With(id + 1)), hid, With(id + 1), SESSION, true);
    run', acts' := Go(cfg, run', acts', hid, closing, s, With(id + 1), id + 1, Finished, Del(s.db, SessionKey(SESSION)), s.rows,
                      s.outputs + [(SESSION, ErrorOutput)]);
  }

  /** The write that brings a deleted session back. */
  lemma Revive(cfg: Config, run: seq<World>, acts: seq<Action>, s: Scene, id: Id)
    returns (run': seq<World>, acts': seq<Action>)
    requires On(cfg, run, acts, 1, StartSave(SESSION, STARTED_SESSION, 600), s, id)
    ensures On(cfg, run', acts', 1, Finished, s.(db := SetEx(s.db, SessionKey(SESSION), SessionValue(STARTED_SESSION), 600, s.now)), id + 1)
  {
    hide On, Moved;
    var h := StartSave(SESSION, STARTED_SESSION, 600);
    BeforeIs(cfg, run, acts, 1, h, s, With(id), id);
    EffectStartSave(cfg, Before(run, h, With(id)), 1, With(id), SESSION, STARTED_SESSION, 600);
    run', acts' := Go(cfg, run, acts, 1, h, s, With(id), id, Finished,
                      SetEx(s.db, SessionKey(SESSION), SessionValue(STARTED_SESSION), 600, s.now), s.rows, s.outputs);
  }

  const STARTING := StartSave(SESSION, STARTED_SESSION, 600)
  const ASKED_AGAIN := CallbackGet(Google, SESSION, CANCELLED)

  /** A start has read the session, and a cancelled callback has closed it since. */
  lemma CloseBehindStart(cfg: Config) returns (run: seq<World>, acts: seq<Action>, s: Scene)
    requires cfg.Valid()
    ensures On(cfg, run, acts, 1, STARTING, s, 7) && s.now == 0 && s.outputs == [(SESSION, ErrorOutput)]
    ensures 3 !in s.others
  {
    hide On, SetEx, Del, Get;
    run, acts := ToStart(cfg, Active);
    s := Scn(1, Active, Authorized(), []);
    run, acts := Comes(cfg, run, acts, 1, STARTING, s, 5, 2, ASKED_AGAIN);
    s := s.(others := s.others[1 := STARTING]);
    StoredIsRead(map[], SAVED, SESSION_TTL_SECONDS);
    run, acts := Cancel(cfg, run, acts, 2, s, 5, SAVED);
    s := s.(db := Del(s.db, SessionKey(SESSION)), outputs := s.outputs + [(SESSION, ErrorOutput)]);
    Turn(cfg, run, acts, 2, Finished, s, 7, 1);
    s := s.(others := s.others[2 := Finished]);
  }

  /** A run with such an overlap: a start that read the session before a cancelled callback closed it
      writes it back, and a second callback answers for it again. */
  lemma RevivedIsAnsweredTwice(cfg: Config) returns (run: seq<World>, acts: seq<Action>)
    requires cfg.Valid()
    ensures IsRun(cfg, run, acts) && |run| == |acts| + 1
    ensures run[|acts|].hist.outputs == [(SESSION, ErrorOutput), (SESSION, ErrorOutput)]
  {
    hide On, SetEx, Del, Get, IsRun;
    var s: Scene;
    run, acts, s := CloseBehindStart(cfg);
    run, acts := Revive(cfg, run, acts, s, 7);
    StoredIsRead(s.db, STARTED_SESSION, 600);
    s := s.(db := SetEx(s.db, SessionKey(SESSION), SessionValue(STARTED_SESSION), 600, 0));
    run, acts := Comes(cfg, run, acts, 1, Finished, s, 8, 3, ASKED_AGAIN);
    s := s.(others := s.others[1 := Finished]);
    run, acts := Cancel(cfg, run, acts, 3, s, 8, STARTED_SESSION);
    s := s.(db := Del(s.db, SessionKey(SESSION)), outputs := s.outputs + [(SESSION, ErrorOutput)]);
    Standing(cfg, run, acts, 3, Finished, s, 10);
  }

  lemma StoredIsRead(db: Keyspace, s: OAuthSession, ttl: int)
    requires ttl >= 1
    ensures Get(SetEx(db, SessionKey(SESSION), SessionValue(s), ttl, 0), SessionKey(SESSION), 0) == Some(SessionValue(s))
  {
  }
}
