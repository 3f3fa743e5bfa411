/** Redis as the source uses it: string keys with a millisecond expiry, and the commands
    GET, SET EX, SET EX NX, DEL, TTL and the two Lua scripts. Each function is one atomic command:
    its argument is the keyspace and the clock before, its result the reply and the keyspace after. */
module RedisKeyspace {
  import opened Wrappers
  import opened Records

  /** `expiresAt` is None for a key without a time to live. */
  datatype Entry = Entry(value: Value, expiresAt: Option<int>)

  type Keyspace = map<Key, Entry>

  predicate Live(db: Keyspace, k: Key, now: int) {
    k in db && (db[k].expiresAt.Some? ==> now < db[k].expiresAt.value)
  }

  function Get(db: Keyspace, k: Key, now: int): Option<Value> {
    if Live(db, k, now) then Some(db[k].value) else None
  }

  function SetEx(db: Keyspace, k: Key, v: Value, ttlSeconds: int, now: int): Keyspace {
    db[k := Entry(v, Some(now + ttlSeconds * 1000))]
  }

  function Del(db: Keyspace, k: Key): Keyspace {
    db - {k}
  }

  /** TTL replies in whole seconds, rounded; -2 for a missing key, -1 for one that never expires. */
  function TtlReply(db: Keyspace, k: Key, now: int): int {
    if !Live(db, k, now) then -2
    else if db[k].expiresAt.None? then -1
    else (db[k].expiresAt.value - now + 500) / 1000
  }

  /** The consume script: read the key and, if it was there, delete it. */
  function Consumed(db: Keyspace, k: Key, now: int): Keyspace {
    if Live(db, k, now) then Del(db, k) else db
  }

  function CounterAt(db: Keyspace, k: Key, now: int): int {
    if Live(db, k, now) && db[k].value.Counter? then db[k].value.count else 0
  }

  /** The rate-limit script: INCR, and EXPIRE only when the counter is 1. INCR keeps the expiry
      of a live counter; EXPIRE with a non-positive time deletes the key. */
  function Incremented(db: Keyspace, k: Key, windowSeconds: int, now: int): Keyspace {
    var current := CounterAt(db, k, now) + 1;
    if current == 1 then
      if windowSeconds <= 0 then Del(db, k)
      else SetEx(db, k, Counter(1), windowSeconds, now)
    else
      db[k := Entry(Counter(current), db[k].expiresAt)]
  }

  /** The counter goes up by one, keeping its expiry, or starts its window at one. */
  predicate CountsUp(db: Keyspace, db': Keyspace, k: Key, windowSeconds: int, now: int) {
    && k in db'
    && db'[k] == if CounterAt(db, k, now) == 0 then Entry(Counter(1), Some(now + windowSeconds * 1000))
                 else Entry(Counter(CounterAt(db, k, now) + 1), db[k].expiresAt)
  }

  /** A server holding one keyspace, with the clock it shares with the application.
      Each method is one command; the clock moves only between commands. */
  class RedisServer {
    var now: int
    var db: Keyspace

    constructor (start: int)
      ensures now == start && db == map[]
    {
      now, db := start, map[];
    }

    /** Time passes while a command is in flight. */
    method Elapse(milliseconds: nat)
      modifies this`now
      ensures now == old(now) + milliseconds
    {
      now := now + milliseconds;
    }

    method GetKey(k: Key) returns (v: Option<Value>)
      ensures v == if k in db && (db[k].expiresAt.Some? ==> now < db[k].expiresAt.value) then Some(db[k].value) else None
    {
      if k in db && (db[k].expiresAt.None? || now < db[k].expiresAt.value) {
        v := Some(db[k].value);
      } else {
        v := None;
      }
    }

    method Set(k: Key, v: Value, ttlSeconds: int)
      requires ttlSeconds >= 1
      modifies this`db
      ensures db == old(db)[k := Entry(v, Some(now + ttlSeconds * 1000))]
    {
      db := db[k := Entry(v, Some(now + ttlSeconds * 1000))];
    }

    method SetNx(k: Key, v: Value, ttlSeconds: int) returns (ok: bool)
      requires ttlSeconds >= 1
      modifies this`db
      ensures !ok <==> k in old(db) && (old(db)[k].expiresAt.Some? ==> now < old(db)[k].expiresAt.value)
      ensures db == if ok then old(db)[k := Entry(v, Some(now + ttlSeconds * 1000))] else old(db)
    {
      var there := GetKey(k);
      ok := there.None?;
      if ok {
        Set(k, v, ttlSeconds);
      }
    }

    method DelKey(k: Key)
      modifies this`db
      ensures db == old(db) - {k}
    {
      db := map key | key in db && key != k :: db[key];
    }

    /** -2 for a missing key, -1 for one that never expires, else the time left to the nearest second. */
    method Ttl(k: Key) returns (seconds: int)
      ensures if k !in db || (db[k].expiresAt.Some? && db[k].expiresAt.value <= now) then seconds == -2
              else if db[k].expiresAt.None? then seconds == -1
              else seconds * 1000 - 500 <= db[k].expiresAt.value - now < seconds * 1000 + 500
      ensures seconds == TtlReply(db, k, now)
    {
      var there := GetKey(k);
      if there.None? {
        return -2;
      }
      if db[k].expiresAt.None? {
        return -1;
      }
      seconds := (db[k].expiresAt.value - now + 500) / 1000;
    }

    /** GET, then DEL if there was a value, as one script. */
    method EvalConsume(k: Key) returns (v: Option<Value>)
      modifies this`db
      ensures if k in old(db) && (old(db)[k].expiresAt.Some? ==> now < old(db)[k].expiresAt.value)
              then v == Some(old(db)[k].value) && db == old(db) - {k}
              else v == None && db == old(db)
    {
      v := GetKey(k);
      if v.Some? {
        DelKey(k);
      }
    }

    /** INCR, then EXPIRE when the counter is fresh, as one script. */
    method EvalIncr(k: Key, windowSeconds: int) returns (current: int)
      modifies this`db
      ensures if k in old(db) && (old(db)[k].expiresAt.Some? ==> now < old(db)[k].expiresAt.value) && old(db)[k].value.Counter?
              then current == old(db)[k].value.count + 1 else current == 1
      ensures windowSeconds >= 1 ==>
                && CountsUp(old(db), db, k, windowSeconds, now)
                && forall key :: key != k ==> (key in db <==> key in old(db)) && (key in db ==> db[key] == old(db)[key])
      ensures db == Incremented(old(db), k, windowSeconds, now)
    {
      var there := GetKey(k);
      current := if there.Some? && there.value.Counter? then there.value.count + 1 else 1;
      if current == 1 {
        if windowSeconds <= 0 {
          DelKey(k);
        } else {
          Set(k, Counter(1), windowSeconds);
        }
      } else {
        db := db[k := Entry(Counter(current), db[k].expiresAt)];
      }
    }
  }
}
