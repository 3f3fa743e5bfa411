/** The fixed-window rate limiter, and how much it lets through over any stretch of time. */
module RateLimiting {
  import opened Wrappers
  import opened Records
  import opened RedisKeyspace

  datatype RateLimitResult = RateLimitResult(allowed: bool, count: int, limit: int)

  class RateLimiter {
    const redis: RedisServer

    constructor (redis: RedisServer)
      ensures this.redis == redis
    {
      this.redis := redis;
    }

    /** One script call; the answer compares the count with the limit. */
    method Check(scope: string, identifier: string, limit: int, windowSeconds: int) returns (r: RateLimitResult)
      modifies redis`db
      ensures r.count == CounterAt(old(redis.db), RateKey(scope, identifier), redis.now) + 1 && r.limit == limit
      ensures r.allowed <==> r.count <= limit
      ensures windowSeconds >= 1 ==> CountsUp(old(redis.db), redis.db, RateKey(scope, identifier), windowSeconds, redis.now)
      ensures redis.db == Incremented(old(redis.db), RateKey(scope, identifier), windowSeconds, redis.now)
    {
      var key := RateKey(scope, identifier);
      var count := redis.EvalIncr(key, windowSeconds);
      r := RateLimitResult(count <= limit, count, limit);
    }
  }

  // ---------------------------------------------------------------- traces of one key

  /** Commands in the order Redis runs them: checks of the key, and commands on other keys. */
  datatype Event = Checked(at: int) | Elsewhere(at: int)

  /** How one command changes the keyspace, as far as key `k` is concerned. */
  ghost predicate Changes(k: Key, windowSeconds: int, db: Keyspace, e: Event, db': Keyspace) {
    match e
    case Checked(at) => CountsUp(db, db', k, windowSeconds, at)
    case Elsewhere(at) => (k in db' <==> k in db) && (k in db ==> db'[k] == db[k])
  }

  /** `dbs[i]` is the keyspace before command `i`; the key does not exist at the beginning. */
  ghost predicate IsTrace(k: Key, windowSeconds: int, dbs: seq<Keyspace>, events: seq<Event>) {
    && |dbs| == |events| + 1 && k !in dbs[0]
    && (forall i {:trigger events[i]} :: 0 <= i < |events| ==> Changes(k, windowSeconds, dbs[i], events[i], dbs[i + 1]))
    && (forall i, j :: 0 <= i <= j < |events| ==> events[i].at <= events[j].at)
  }

  predicate Allows(k: Key, limit: nat, db: Keyspace, e: Event) {
    e.Checked? && CounterAt(db, k, e.at) + 1 <= limit
  }

  /** The checks allowed among the first `i` commands, at times `from` to `to` (excluded). */
  function AllowedIn(k: Key, limit: nat, dbs: seq<Keyspace>, events: seq<Event>, i: nat, from: int, to: int): nat
    requires i <= |events| && |dbs| == |events| + 1
  {
    if i == 0 then 0
    else AllowedIn(k, limit, dbs, events, i - 1, from, to)
         + (if Allows(k, limit, dbs[i - 1], events[i - 1]) && from <= events[i - 1].at < to then 1 else 0)
  }

  // ---------------------------------------------------------------- the counter

  /** A counter that exists counts at least one check, and expires one window after its first. */
  ghost predicate CounterOK(k: Key, windowSeconds: int, db: Keyspace, now: int) {
    k in db ==>
      && db[k].value.Counter? && db[k].value.count >= 1
      && db[k].expiresAt.Some? && db[k].expiresAt.value <= now + windowSeconds * 1000
  }

  lemma StepOfTrace(k: Key, windowSeconds: int, dbs: seq<Keyspace>, events: seq<Event>, i: nat)
    requires IsTrace(k, windowSeconds, dbs, events) && i < |events|
    ensures |dbs| == |events| + 1 && Changes(k, windowSeconds, dbs[i], events[i], dbs[i + 1])
    ensures forall j :: 0 <= j <= i ==> events[j].at <= events[i].at
  {
    hide Changes;
    assert Changes(k, windowSeconds, dbs[i], events[i], dbs[i + 1]);
  }

  /** Every counter has an expiry, at most one window away: none is left to block its caller for good. */
  lemma {:induction false} EveryCounterExpires(k: Key, windowSeconds: int, dbs: seq<Keyspace>, events: seq<Event>, i: nat)
    requires IsTrace(k, windowSeconds, dbs, events) && windowSeconds >= 1 && i < |events|
    ensures |dbs| == |events| + 1 && CounterOK(k, windowSeconds, dbs[i + 1], events[i].at)
  {
    StepOfTrace(k, windowSeconds, dbs, events, i);
    hide IsTrace;
    if i > 0 {
      EveryCounterExpires(k, windowSeconds, dbs, events, i - 1);
    } else {
      FreshKey(k, windowSeconds, dbs, events);
    }
  }

  lemma FreshKey(k: Key, windowSeconds: int, dbs: seq<Keyspace>, events: seq<Event>)
    requires IsTrace(k, windowSeconds, dbs, events)
    ensures |dbs| == |events| + 1 && k !in dbs[0]
  {
    hide Changes;
  }

  /** A check of a live counter, allowed or denied, leaves its expiry where it was. */
  lemma ChecksNeverExtendTheWindow(k: Key, windowSeconds: int, db: Keyspace, db': Keyspace, now: int)
    requires CounterOK(k, windowSeconds, db, now) && Live(db, k, now) && Changes(k, windowSeconds, db, Checked(now), db')
    ensures k in db' && db'[k] == Entry(Counter(db[k].value.count + 1), db[k].expiresAt)
  {
  }

  // ---------------------------------------------------------------- the bound

  function Least(a: int, b: int): int {
    if a < b then a else b
  }

  lemma {:induction false} NothingEarly(k: Key, limit: nat, dbs: seq<Keyspace>, events: seq<Event>, i: nat, from: int, to: int)
    requires i <= |events| && |dbs| == |events| + 1 && forall j :: 0 <= j < i ==> events[j].at < from
    ensures AllowedIn(k, limit, dbs, events, i, from, to) == 0
  {
    if i > 0 {
      NothingEarly(k, limit, dbs, events, i - 1, from, to);
    }
  }

  /** Before the key exists nothing was checked. */
  lemma {:induction false} NothingYet(k: Key, limit: nat, windowSeconds: int, dbs: seq<Keyspace>, events: seq<Event>,
                                      i: nat, from: int, to: int)
    requires IsTrace(k, windowSeconds, dbs, events) && windowSeconds >= 1 && i <= |events| && k !in dbs[i]
    ensures AllowedIn(k, limit, dbs, events, i, from, to) == 0
  {
    if i > 0 {
      StepOfTrace(k, windowSeconds, dbs, events, i - 1);
      hide IsTrace;
      NothingYet(k, limit, windowSeconds, dbs, events, i - 1, from, to);
    }
  }

  lemma Product(m: int, j: nat)
    ensures j > 0 ==> m * (j - 1) + m == m * j
    ensures m >= 1 && j >= 1 ==> m * j >= 1
    ensures j == 0 ==> m * j == 0
  {
  }

  /** A window that began before `from + j` windows has at most `j` full windows in the interval
      before it; one that began before `from` spent its first check outside. */
  lemma {:induction false} WindowBound(k: Key, limit: nat, windowSeconds: int, dbs: seq<Keyspace>, events: seq<Event>, i: nat,
                                       from: int, to: int, j: nat)
    requires IsTrace(k, windowSeconds, dbs, events) && windowSeconds >= 1 && limit >= 1 && i <= |events|
    requires k in dbs[i] && dbs[i][k].expiresAt.Some? && dbs[i][k].value.Counter?
    requires dbs[i][k].expiresAt.value - windowSeconds * 1000 < from + windowSeconds * 1000 * j
    ensures AllowedIn(k, limit, dbs, events, i, from, to) <= limit * j + Least(dbs[i][k].value.count, limit) - 1
  {
    var w := windowSeconds * 1000;
    FreshKey(k, windowSeconds, dbs, events);
    StepOfTrace(k, windowSeconds, dbs, events, i - 1);
    var e, before := events[i - 1], dbs[i - 1];
    if i > 1 {
      EveryCounterExpires(k, windowSeconds, dbs, events, i - 2);
    }
    Product(limit, j);
    Product(w, j);
    hide IsTrace;
    if k !in before {
      NothingYet(k, limit, windowSeconds, dbs, events, i - 1, from, to);
    } else if e.Elsewhere? {
      WindowBound(k, limit, windowSeconds, dbs, events, i - 1, from, to, j);
    } else if Live(before, k, e.at) {
      WindowBound(k, limit, windowSeconds, dbs, events, i - 1, from, to, j);
    } else if j == 0 {
      NothingEarly(k, limit, dbs, events, i, from, to);
    } else {
      WindowBound(k, limit, windowSeconds, dbs, events, i - 1, from, to, j - 1);
    }
  }

  /** In any interval of `n` windows at most `(n + 1) * limit - 1` checks are allowed, whatever was
      checked before it, denied in it, or done to other keys in between. */
  lemma {:induction false} RateBound(k: Key, limit: nat, windowSeconds: int, dbs: seq<Keyspace>, events: seq<Event>, i: nat,
                                     from: int, n: nat)
    requires IsTrace(k, windowSeconds, dbs, events) && windowSeconds >= 1 && limit >= 1 && n >= 1 && i <= |events|
    ensures AllowedIn(k, limit, dbs, events, i, from, from + windowSeconds * 1000 * n) <= (n + 1) * limit - 1
  {
    var to := from + windowSeconds * 1000 * n;
    Product(limit, n + 1);
    Product(limit, n);
    if i > 0 {
      var e := events[i - 1];
      if Allows(k, limit, dbs[i - 1], e) && from <= e.at < to {
        StepOfTrace(k, windowSeconds, dbs, events, i - 1);
        EveryCounterExpires(k, windowSeconds, dbs, events, i - 1);
        WindowBound(k, limit, windowSeconds, dbs, events, i, from, to, n);
      } else {
        RateBound(k, limit, windowSeconds, dbs, events, i - 1, from, n);
      }
    }
  }

  /** A limit of zero allows nothing. */
  lemma {:induction false} ZeroAllowsNothing(k: Key, windowSeconds: int, dbs: seq<Keyspace>, events: seq<Event>, i: nat, from: int, to: int)
    requires IsTrace(k, windowSeconds, dbs, events) && windowSeconds >= 1 && i <= |events|
    ensures AllowedIn(k, 0, dbs, events, i, from, to) == 0
  {
    if i > 0 {
      ZeroAllowsNothing(k, windowSeconds, dbs, events, i - 1, from, to);
      if i > 1 {
        EveryCounterExpires(k, windowSeconds, dbs, events, i - 2);
      } else {
        FreshKey(k, windowSeconds, dbs, events);
      }
    }
  }

  // ---------------------------------------------------------------- the bound is reached

  lemma {:induction false} CountedOnce(k: Key, limit: nat, dbs: seq<Keyspace>, events: seq<Event>, db: Keyspace, e: Event, i: nat, from: int, to: int)
    requires |dbs| == |events| + 1 && i <= |events|
    ensures AllowedIn(k, limit, dbs + [db], events + [e], i, from, to) == AllowedIn(k, limit, dbs, events, i, from, to)
  {
    if i > 0 {
      CountedOnce(k, limit, dbs, events, db, e, i - 1, from, to);
      assert (dbs + [db])[i - 1] == dbs[i - 1] && (events + [e])[i - 1] == events[i - 1];
    }
  }

  /** A trace ends with the key holding `count`, good until `expiry`, and so many checks allowed. */
  ghost predicate Ends(k: Key, limit: nat, windowSeconds: int, dbs: seq<Keyspace>, events: seq<Event>, now: int,
                       count: int, expiry: int, from: int, to: int, allowed: int) {
    && IsTrace(k, windowSeconds, dbs, events) && |dbs| == |events| + 1
    && (forall i :: 0 <= i < |events| ==> events[i].at <= now)
    && k in dbs[|events|] && dbs[|events|][k] == Entry(Counter(count), Some(expiry))
    && AllowedIn(k, limit, dbs, events, |events|, from, to) == allowed
  }

  /** One more check: the next count in its window, or the first of a new one. */
  lemma OneMoreCheck(k: Key, limit: nat, windowSeconds: int, dbs: seq<Keyspace>, events: seq<Event>, now: int, count: int, expiry: int,
                     from: int, to: int, allowed: int, at: int)
    returns (dbs': seq<Keyspace>, events': seq<Event>)
    requires Ends(k, limit, windowSeconds, dbs, events, now, count, expiry, from, to, allowed)
    requires now <= at && windowSeconds >= 1 && count >= 1 && from <= at < to && limit >= 1 && (at < expiry ==> count + 1 <= limit)
    ensures Ends(k, limit, windowSeconds, dbs', events', at, if at < expiry then count + 1 else 1,
                 if at < expiry then expiry else at + windowSeconds * 1000, from, to, allowed + 1)
  {
    var db, n := dbs[|events|], |events|;
    dbs', events' := dbs + [Incremented(db, k, windowSeconds, at)], events + [Checked(at)];
    CountedOnce(k, limit, dbs, events, Incremented(db, k, windowSeconds, at), Checked(at), n, from, to);
    forall i {:trigger events'[i]} | 0 <= i < |events'| ensures Changes(k, windowSeconds, dbs'[i], events'[i], dbs'[i + 1]) {
      if i < n {
        assert Changes(k, windowSeconds, dbs[i], events[i], dbs[i + 1]);
      }
    }
    assert dbs'[n] == db && events'[n] == Checked(at);
  }

  lemma {:induction false} Burst(k: Key, limit: nat, windowSeconds: int, dbs: seq<Keyspace>, events: seq<Event>, now: int, count: int,
                                 expiry: int, from: int, to: int, allowed: int, at: int, m: nat)
    returns (dbs': seq<Keyspace>, events': seq<Event>)
    requires Ends(k, limit, windowSeconds, dbs, events, now, count, expiry, from, to, allowed)
    requires now <= at < expiry && windowSeconds >= 1 && count >= 1 && from <= at < to && count + m <= limit
    ensures Ends(k, limit, windowSeconds, dbs', events', at, count + m, expiry, from, to, allowed + m)
    decreases m
  {
    hide Ends;
    if m == 0 {
      dbs', events' := dbs, events;
      EndsLater(k, limit, windowSeconds, dbs, events, now, count, expiry, from, to, allowed, at);
    } else {
      dbs', events' := OneMoreCheck(k, limit, windowSeconds, dbs, events, now, count, expiry, from, to, allowed, at);
      dbs', events' := Burst(k, limit, windowSeconds, dbs', events', at, count + 1, expiry, from, to, allowed + 1, at, m - 1);
    }
  }

  lemma EndsLater(k: Key, limit: nat, windowSeconds: int, dbs: seq<Keyspace>, events: seq<Event>, now: int, count: int,
                  expiry: int, from: int, to: int, allowed: int, at: int)
    requires Ends(k, limit, windowSeconds, dbs, events, now, count, expiry, from, to, allowed) && now <= at
    ensures Ends(k, limit, windowSeconds, dbs, events, at, count, expiry, from, to, allowed)
  {
    hide IsTrace;
  }

  /** A full burst at the start of each of `n` windows, the first of which begins as the last one ends. */
  lemma {:induction false} Windows(k: Key, limit: nat, windowSeconds: int, dbs: seq<Keyspace>, events: seq<Event>, now: int, count: int,
                                   from: int, to: int, allowed: int, at: int, n: nat)
    returns (dbs': seq<Keyspace>, events': seq<Event>)
    requires Ends(k, limit, windowSeconds, dbs, events, now, count, at, from, to, allowed)
    requires now <= at && windowSeconds >= 1 && limit >= 1 && count >= 1 && from <= at && n >= 1
    requires at + windowSeconds * 1000 * (n - 1) < to
    ensures |dbs'| == |events'| + 1 && IsTrace(k, windowSeconds, dbs', events')
    ensures AllowedIn(k, limit, dbs', events', |events'|, from, to) == allowed + limit * n
    decreases n
  {
    var w := windowSeconds * 1000;
    Product(w, n - 1);
    Product(limit, n);
    hide Ends;
    dbs', events' := OneMoreCheck(k, limit, windowSeconds, dbs, events, now, count, at, from, to, allowed, at);
    dbs', events' := Burst(k, limit, windowSeconds, dbs', events', at, 1, at + w, from, to, allowed + 1, at, limit - 1);
    EndsIs(k, limit, windowSeconds, dbs', events', at, limit, at + w, from, to, allowed + limit);
    if n > 1 {
      dbs', events' := Windows(k, limit, windowSeconds, dbs', events', at, limit, from, to, allowed + limit, at + w, n - 1);
    }
  }

  lemma EndsIs(k: Key, limit: nat, windowSeconds: int, dbs: seq<Keyspace>, events: seq<Event>, now: int, count: int,
               expiry: int, from: int, to: int, allowed: int)
    requires Ends(k, limit, windowSeconds, dbs, events, now, count, expiry, from, to, allowed)
    ensures |dbs| == |events| + 1 && IsTrace(k, windowSeconds, dbs, events)
    ensures AllowedIn(k, limit, dbs, events, |events|, from, to) == allowed
  {
    hide IsTrace;
  }

  lemma FirstCheck(k: Key, limit: nat, windowSeconds: int, from: int, to: int) returns (dbs: seq<Keyspace>, events: seq<Event>)
    requires windowSeconds >= 1 && from > 0
    ensures Ends(k, limit, windowSeconds, dbs, events, 0, 1, windowSeconds * 1000, from, to, 0)
  {
    var none: Keyspace := map[];
    dbs, events := [none, Incremented(none, k, windowSeconds, 0)], [Checked(0)];
    assert AllowedIn(k, limit, dbs, events, 0, from, to) == 0;
  }

  /** The bound is exact: for every limit, window and number of windows, one early check, the rest of its
      window's quota just before it ends, and a full quota as each later window begins reach it. */
  lemma RateBoundIsReached(k: Key, limit: nat, windowSeconds: int, n: nat)
    returns (dbs: seq<Keyspace>, events: seq<Event>, from: int)
    requires limit >= 1 && windowSeconds >= 1 && n >= 1
    ensures |dbs| == |events| + 1 && IsTrace(k, windowSeconds, dbs, events)
    ensures AllowedIn(k, limit, dbs, events, |events|, from, from + windowSeconds * 1000 * n) == (n + 1) * limit - 1
  {
    hide Ends, IsTrace, AllowedIn;
    var w := windowSeconds * 1000;
    from := w - 1;
    var to := from + windowSeconds * 1000 * n;
    Product(w, n);
    Product(limit, n + 1);
    dbs, events := FirstCheck(k, limit, windowSeconds, from, to);
    dbs, events := Burst(k, limit, windowSeconds, dbs, events, 0, 1, w, from, to, 0, w - 1, limit - 1);
    dbs, events := Windows(k, limit, windowSeconds, dbs, events, w - 1, limit, from, to, limit - 1, w, n);
  }
}
