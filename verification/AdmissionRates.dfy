/** How many requests the guards of the internal endpoints admit over any stretch of time, for one
    address and for one client. */
module AdmissionRates {
  import opened Wrappers
  import opened Records
  import opened RedisKeyspace
  import opened RateLimiting
  import opened Requirements

  /** Calls of the guards, with their answers, and commands on other keys, in the order Redis runs them. */
  datatype Event = Asked(at: int, ip: string, clientId: string, accepted: bool, answer: Admission) | Elsewhere(at: int)

  /** Between guard calls no counter of the two scopes is touched. */
  ghost predicate Happens(perIp: RatePolicy, perClient: RatePolicy, db: Keyspace, e: Event, db': Keyspace) {
    match e
    case Asked(at, ip, clientId, accepted, answer) => AdmitComesTo(perIp, perClient, ip, clientId, accepted, at, db, answer, db')
    case Elsewhere(_) =>
      forall k: Key {:trigger k in db'} {:trigger db'[k]} :: k.RateKey? && k.scope in [perIp.scope, perClient.scope] ==>
        (k in db' <==> k in db) && (k in db ==> db'[k] == db[k])
  }

  /** `dbs[i]` is the keyspace before event `i`; in the beginning nobody has been counted. */
  ghost predicate IsHistory(perIp: RatePolicy, perClient: RatePolicy, dbs: seq<Keyspace>, events: seq<Event>) {
    && |dbs| == |events| + 1
    && (forall k: Key :: k.RateKey? && k.scope in [perIp.scope, perClient.scope] ==> k !in dbs[0])
    && (forall i {:trigger events[i]} :: 0 <= i < |events| ==> Happens(perIp, perClient, dbs[i], events[i], dbs[i + 1]))
    && (forall i, j :: 0 <= i <= j < |events| ==> events[i].at <= events[j].at)
  }

  predicate AdmittedTo(e: Event, from: int, to: int) {
    e.Asked? && e.answer.Admitted? && from <= e.at < to
  }

  /** The calls of this address admitted among the first `i` events, at times `from` to `to` (excluded). */
  function AdmittedFrom(ip: string, events: seq<Event>, i: nat, from: int, to: int): nat
    requires i <= |events|
  {
    if i == 0 then 0
    else AdmittedFrom(ip, events, i - 1, from, to) + (if AdmittedTo(events[i - 1], from, to) && events[i - 1].ip == ip then 1 else 0)
  }

  /** The calls in the name of this client. */
  function AdmittedFor(clientId: string, events: seq<Event>, i: nat, from: int, to: int): nat
    requires i <= |events|
  {
    if i == 0 then 0
    else AdmittedFor(clientId, events, i - 1, from, to) + (if AdmittedTo(events[i - 1], from, to) && events[i - 1].clientId == clientId then 1 else 0)
  }

  // ---------------------------------------------------------------- one counter's view

  /** The call counts against key `k`. */
  predicate Counts(perIp: RatePolicy, perClient: RatePolicy, k: Key, db: Keyspace, e: Event) {
    && e.Asked?
    && (k == RateKey(perIp.scope, e.ip)
        || (k == RateKey(perClient.scope, e.clientId) && e.clientId != ""
            && CounterAt(db, RateKey(perIp.scope, e.ip), e.at) + 1 <= perIp.limit))
  }

  /** What the rate limiter sees of event `e` at key `k`. */
  function Seen(perIp: RatePolicy, perClient: RatePolicy, k: Key, db: Keyspace, e: Event): RateLimiting.Event {
    if Counts(perIp, perClient, k, db, e) then Checked(e.at) else RateLimiting.Elsewhere(e.at)
  }

  function View(perIp: RatePolicy, perClient: RatePolicy, k: Key, dbs: seq<Keyspace>, events: seq<Event>): (seen: seq<RateLimiting.Event>)
    requires |dbs| == |events| + 1
  {
    seq(|events|, i requires 0 <= i < |events| => Seen(perIp, perClient, k, dbs[i], events[i]))
  }

  lemma SeenChanges(perIp: RatePolicy, perClient: RatePolicy, k: Key, windowSeconds: int, db: Keyspace, e: Event, db': Keyspace)
    requires perIp.scope != perClient.scope && Happens(perIp, perClient, db, e, db')
    requires k.RateKey? && k.scope in [perIp.scope, perClient.scope]
    requires windowSeconds == if k.scope == perIp.scope then perIp.windowSeconds else perClient.windowSeconds
    ensures Changes(k, windowSeconds, db, Seen(perIp, perClient, k, db, e), db')
  {
  }

  /** A history, seen from one counter, is a trace of the rate limiter. */
  lemma ViewIsTrace(perIp: RatePolicy, perClient: RatePolicy, k: Key, windowSeconds: int, dbs: seq<Keyspace>, events: seq<Event>)
    requires perIp.scope != perClient.scope && IsHistory(perIp, perClient, dbs, events)
    requires k.RateKey? && k.scope in [perIp.scope, perClient.scope]
    requires windowSeconds == if k.scope == perIp.scope then perIp.windowSeconds else perClient.windowSeconds
    ensures IsTrace(k, windowSeconds, dbs, View(perIp, perClient, k, dbs, events))
  {
    hide Happens, Changes;
    var seen := View(perIp, perClient, k, dbs, events);
    forall i {:trigger seen[i]} | 0 <= i < |seen| ensures Changes(k, windowSeconds, dbs[i], seen[i], dbs[i + 1]) {
      assert Happens(perIp, perClient, dbs[i], events[i], dbs[i + 1]);
      SeenChanges(perIp, perClient, k, windowSeconds, dbs[i], events[i], dbs[i + 1]);
    }
  }

  lemma AdmittedIsAllowed(perIp: RatePolicy, perClient: RatePolicy, db: Keyspace, e: Event, db': Keyspace)
    requires Happens(perIp, perClient, db, e, db') && e.Asked? && e.answer.Admitted?
    ensures perIp.limit >= 0 ==>
              var k := RateKey(perIp.scope, e.ip);
              Allows(k, perIp.limit, db, Seen(perIp, perClient, k, db, e))
    ensures perClient.limit >= 0 && e.clientId != "" ==>
              var k := RateKey(perClient.scope, e.clientId);
              Allows(k, perClient.limit, db, Seen(perIp, perClient, k, db, e))
  {
  }

  lemma {:induction false} AddressWithinView(perIp: RatePolicy, perClient: RatePolicy, ip: string, dbs: seq<Keyspace>, events: seq<Event>,
                                             i: nat, from: int, to: int)
    requires IsHistory(perIp, perClient, dbs, events) && perIp.limit >= 0 && i <= |events|
    ensures var k := RateKey(perIp.scope, ip);
            AdmittedFrom(ip, events, i, from, to) <= AllowedIn(k, perIp.limit, dbs, View(perIp, perClient, k, dbs, events), i, from, to)
  {
    if i > 0 {
      hide Happens, Allows;
      AddressWithinView(perIp, perClient, ip, dbs, events, i - 1, from, to);
      assert Happens(perIp, perClient, dbs[i - 1], events[i - 1], dbs[i]);
      if AdmittedTo(events[i - 1], from, to) {
        AdmittedIsAllowed(perIp, perClient, dbs[i - 1], events[i - 1], dbs[i]);
      }
    }
  }

  lemma {:induction false} ClientWithinView(perIp: RatePolicy, perClient: RatePolicy, clientId: string, dbs: seq<Keyspace>, events: seq<Event>,
                                            i: nat, from: int, to: int)
    requires IsHistory(perIp, perClient, dbs, events) && perClient.limit >= 0 && i <= |events| && clientId != ""
    ensures var k := RateKey(perClient.scope, clientId);
            AdmittedFor(clientId, events, i, from, to) <= AllowedIn(k, perClient.limit, dbs, View(perIp, perClient, k, dbs, events), i, from, to)
  {
    if i > 0 {
      hide Happens, Allows;
      ClientWithinView(perIp, perClient, clientId, dbs, events, i - 1, from, to);
      assert Happens(perIp, perClient, dbs[i - 1], events[i - 1], dbs[i]);
      if AdmittedTo(events[i - 1], from, to) {
        AdmittedIsAllowed(perIp, perClient, dbs[i - 1], events[i - 1], dbs[i]);
      }
    }
  }

  // ---------------------------------------------------------------- the bounds

  /** In any interval of `n` windows at most `(n + 1) * limit - 1` calls of one address are admitted. */
  lemma AddressBound(perIp: RatePolicy, perClient: RatePolicy, ip: string, dbs: seq<Keyspace>, events: seq<Event>, i: nat, from: int, n: nat)
    requires perIp.scope != perClient.scope && IsHistory(perIp, perClient, dbs, events) && i <= |events|
    requires perIp.limit >= 1 && perIp.windowSeconds >= 1 && n >= 1
    ensures AdmittedFrom(ip, events, i, from, from + perIp.windowSeconds * 1000 * n) <= (n + 1) * perIp.limit - 1
  {
    hide IsHistory, IsTrace, Seen;
    var k := RateKey(perIp.scope, ip);
    SameLength(perIp, perClient, dbs, events);
    ViewIsTrace(perIp, perClient, k, perIp.windowSeconds, dbs, events);
    RateBound(k, perIp.limit, perIp.windowSeconds, dbs, View(perIp, perClient, k, dbs, events), i, from, n);
    AddressWithinView(perIp, perClient, ip, dbs, events, i, from, from + perIp.windowSeconds * 1000 * n);
  }

  /** The same of the calls in one client's name, from however many addresses. */
  lemma ClientBound(perIp: RatePolicy, perClient: RatePolicy, clientId: string, dbs: seq<Keyspace>, events: seq<Event>, i: nat, from: int, n: nat)
    requires perIp.scope != perClient.scope && IsHistory(perIp, perClient, dbs, events) && i <= |events|
    requires perClient.limit >= 1 && perClient.windowSeconds >= 1 && n >= 1 && clientId != ""
    ensures AdmittedFor(clientId, events, i, from, from + perClient.windowSeconds * 1000 * n) <= (n + 1) * perClient.limit - 1
  {
    hide IsHistory, IsTrace, Seen;
    var k := RateKey(perClient.scope, clientId);
    SameLength(perIp, perClient, dbs, events);
    ViewIsTrace(perIp, perClient, k, perClient.windowSeconds, dbs, events);
    RateBound(k, perClient.limit, perClient.windowSeconds, dbs, View(perIp, perClient, k, dbs, events), i, from, n);
    ClientWithinView(perIp, perClient, clientId, dbs, events, i, from, from + perClient.windowSeconds * 1000 * n);
  }

  lemma SameLength(perIp: RatePolicy, perClient: RatePolicy, dbs: seq<Keyspace>, events: seq<Event>)
    requires IsHistory(perIp, perClient, dbs, events)
    ensures |dbs| == |events| + 1
  {
  }
}
