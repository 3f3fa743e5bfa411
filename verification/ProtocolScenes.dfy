/** Runs built one action at a time, from the effect of each step. */
module ProtocolScenes {
  import opened Wrappers
  import opened Records
  import opened RedisKeyspace
  import opened IdentityTable
  import opened Registry
  import opened Protocol
  import opened ProtocolTraces
  import opened ServiceSteps

  /** What a scenario follows besides the handler that moves: the one request `/authorize` is asked, the
      table it started with, and the rest as it is; `others` has the other handlers. */
  datatype Scene = Scene(
    request: AuthorizeRequest,
    start: Table,
    now: int,
    clients: Clients,
    rows: Table,
    db: Keyspace,
    others: map<Id, Handler>,
    outputs: seq<(Id, Output)>)

  /** Handler `hid` is at `h`, the rest is as in `s`, no token is minted, and every id drawn so far is
      below `next`. */
  ghost predicate Shows(w: World, hid: Id, h: Handler, s: Scene, next: Id) {
    && w.now == s.now && w.clients == s.clients && w.rows == s.rows && w.db == s.db && w.hist.outputs == s.outputs
    && w.handlers == s.others[hid := h] && w.hist.tokens == []
    && (forall id :: id in w.hist.drawn ==> id < next)
  }

  predicate Poses(a: Action, q: AuthorizeRequest) {
    a.Accept? && a.entry.AuthorizeLookup? ==> a.entry.q == q
  }

  /** A run in which nobody changes a status, and which ends where `Shows` says. */
  ghost predicate On(cfg: Config, run: seq<World>, acts: seq<Action>, hid: Id, h: Handler, s: Scene, next: Id) {
    && IsRun(cfg, run, acts) && |run| == |acts| + 1 && Shows(run[|run| - 1], hid, h, s, next)
    && run[0].rows == s.start && (forall i :: 0 <= i < |acts| ==> !acts[i].ChangeStatus? && Poses(acts[i], s.request))
  }

  /** The last world, when the handler at `h` takes its next step. */
  function Before(run: seq<World>, h: Handler, r: Randoms): World
    requires run != []
  {
    Drawn(Ticked(run[|run| - 1]), Pick(r, h))
  }

  lemma BeforeIs(cfg: Config, run: seq<World>, acts: seq<Action>, hid: Id, h: Handler, s: Scene, r: Randoms, next: Id)
    requires On(cfg, run, acts, hid, h, s, next)
    ensures run != []
    ensures var v := Before(run, h, r);
            && v.now == s.now && v.clients == s.clients && v.rows == s.rows && v.db == s.db && v.hist.outputs == s.outputs
            && hid in v.handlers && v.handlers[hid] == h && v.hist.tokens == []
  {
    hide IsRun;
  }

  /** What the last world of a scenario looks like. */
  lemma Standing(cfg: Config, run: seq<World>, acts: seq<Action>, hid: Id, h: Handler, s: Scene, next: Id)
    requires On(cfg, run, acts, hid, h, s, next)
    ensures IsRun(cfg, run, acts) && |run| == |acts| + 1 && run[0].rows == s.start
    ensures forall i :: 0 <= i < |acts| ==> !acts[i].ChangeStatus? && Poses(acts[i], s.request)
    ensures var w := run[|acts|];
            && w.now == s.now && w.rows == s.rows && w.db == s.db && w.hist.outputs == s.outputs && w.hist.tokens == []
            && hid in w.handlers && w.handlers[hid] == h && forall k :: k in s.others && k != hid ==> k in w.handlers && w.handlers[k] == s.others[k]
  {
    hide IsRun;
  }

  /** One step of the scenario, given its effect. */
  lemma Go(cfg: Config, run: seq<World>, acts: seq<Action>, hid: Id, h: Handler, s: Scene, r: Randoms, id: Id,
           h': Handler, db': Keyspace, rows': Table, outputs': seq<(Id, Output)>)
    returns (run': seq<World>, acts': seq<Action>)
    requires On(cfg, run, acts, hid, h, s, id) && !h.Finished? && Pick(r, h).draw == id
    requires Becomes(Before(run, h, r), Moved(cfg, Before(run, h, r), hid, r), hid, h', db', rows', outputs')
    ensures On(cfg, run', acts', hid, h', s.(db := db', rows := rows', outputs := outputs'), id + 1)
    ensures |acts'| == |acts| + 1 && acts <= acts' && run <= run' && acts'[|acts|] == Resume(hid, Pick(r, h))
  {
    hide IsRun, StepHandler;
    run', acts' := Take(cfg, run, acts, Resume(hid, Pick(r, h)));
    assert s.others[hid := h][hid := h'] == s.others[hid := h'];
  }

  /** The next request arrives. */
  lemma Comes(cfg: Config, run: seq<World>, acts: seq<Action>, hid: Id, h: Handler, s: Scene, id: Id, newcomer: Id, entry: Handler)
    returns (run': seq<World>, acts': seq<Action>)
    requires On(cfg, run, acts, hid, h, s, id) && IsEntry(entry) && newcomer !in s.others && newcomer != hid
    requires entry.AuthorizeLookup? ==> entry.q == s.request
    ensures On(cfg, run', acts', newcomer, entry, s.(others := s.others[hid := h]), id)
  {
    hide IsRun, StepHandler, IsEntry;
    run', acts' := Take(cfg, run, acts, Accept(newcomer, entry));
  }

  /** Another handler is the one to move next. */
  lemma Turn(cfg: Config, run: seq<World>, acts: seq<Action>, hid: Id, h: Handler, s: Scene, id: Id, other: Id)
    requires On(cfg, run, acts, hid, h, s, id) && other in s.others && other != hid
    ensures On(cfg, run, acts, other, s.others[other], s.(others := s.others[hid := h]), id)
  {
    hide IsRun;
    assert s.others[hid := h][other := s.others[other]] == s.others[hid := h];
  }

  lemma Wait(cfg: Config, run: seq<World>, acts: seq<Action>, hid: Id, h: Handler, s: Scene, id: Id, milliseconds: nat)
    returns (run': seq<World>, acts': seq<Action>)
    requires On(cfg, run, acts, hid, h, s, id)
    ensures On(cfg, run', acts', hid, h, s.(now := s.now + milliseconds), id)
  {
    hide IsRun, StepHandler;
    run', acts' := Take(cfg, run, acts, Elapse(milliseconds));
  }

  /** Nothing in Redis, and the first request. */
  lemma FirstComes(cfg: Config, q: AuthorizeRequest, now: int, clients: Clients, rows: Table, next: Id, hid: Id, entry: Handler)
    returns (run: seq<World>, acts: seq<Action>)
    requires entry.AuthorizeLookup? ==> entry.q == q
    requires cfg.Valid() && IsEntry(entry) && Unique(rows) && forall i :: i in rows ==> rows[i].user != "" && i < next
    ensures On(cfg, run, acts, hid, entry, Scene(q, rows, now, clients, rows, map[], map[], []), next)
  {
    hide IsRun, StepHandler, IsEntry;
    var w := World(now, clients, rows, map[], map[],
                   History(0, rows.Keys, map[], map[], map[], map[], map[], map[], map[], map i | i in rows :: Preexisting,
                           map[], map[], map[], map[], map[], [], {}, []));
    RunOfOne(cfg, w);
    run, acts := Take(cfg, [w], [], Accept(hid, entry));
  }

  /** The step that mints. */
  lemma GoMinting(cfg: Config, run: seq<World>, acts: seq<Action>, hid: Id, h: Handler, s: Scene, r: Randoms, id: Id, t: Token)
    returns (run': seq<World>, acts': seq<Action>)
    requires On(cfg, run, acts, hid, h, s, id) && !h.Finished? && Pick(r, h).draw == id
    requires Mints(Before(run, h, r), Moved(cfg, Before(run, h, r), hid, r), hid, t)
    ensures IsRun(cfg, run', acts') && |run'| == |acts'| + 1 && run'[|acts'|].hist.tokens == [t]
  {
    hide IsRun, StepHandler;
    run', acts' := Take(cfg, run, acts, Resume(hid, Pick(r, h)));
  }
}
