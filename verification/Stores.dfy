/** The Redis-backed stores. Every `await` lets time pass: `d1`, `d2` are the milliseconds between a
    method's commands. Rewrites read the remaining time to live in whole seconds and set it again. */
module Stores {
  import opened Wrappers
  import opened Records
  import opened RedisKeyspace

  /** TTL rounds to the nearest second, so a rewrite moves an expiry by at most half a second plus
      the time between the two commands. */
  lemma RewriteDrift(db: Keyspace, k: Key, readAt: int, setAt: int)
    requires Live(db, k, readAt) && db[k].expiresAt.Some? && readAt <= setAt
    ensures var was := db[k].expiresAt.value;
            -500 <= setAt + TtlReply(db, k, readAt) * 1000 - was <= 500 + (setAt - readAt)
  {
  }

  /** At least half a second of the key's time to live is left: it rounds to a second or more. */
  predicate HasSeconds(db: Keyspace, k: Key, now: int) {
    k in db && db[k].expiresAt.Some? && db[k].expiresAt.value - now >= 500
  }

  /** Key `k` has value `v`, for the time it had left when that was read, to half a second; every
      other key is as it was. */
  ghost predicate Rewritten(db: Keyspace, db': Keyspace, k: Key, v: Value, readAt: int, setAt: int)
    requires HasSeconds(db, k, readAt)
  {
    && k in db' && db'[k].value == v && db'[k].expiresAt.Some?
    && -500 < (db'[k].expiresAt.value - setAt) - (db[k].expiresAt.value - readAt) <= 500
    && (db'[k].expiresAt.value - setAt) % 1000 == 0
    && forall key :: key != k ==> (key in db' <==> key in db) && (key in db ==> db'[key] == db[key])
  }

  /** Which is the SET with the TTL reply. */
  lemma RewrittenIs(db: Keyspace, db': Keyspace, k: Key, v: Value, readAt: int, setAt: int)
    ensures HasSeconds(db, k, readAt) <==> TtlReply(db, k, readAt) > 0
    ensures HasSeconds(db, k, readAt) && Rewritten(db, db', k, v, readAt, setAt) ==> db' == SetEx(db, k, v, TtlReply(db, k, readAt), setAt)
  {
    if HasSeconds(db, k, readAt) && Rewritten(db, db', k, v, readAt, setAt) {
      assert db'[k] == SetEx(db, k, v, TtlReply(db, k, readAt), setAt)[k];
    }
  }

  class ChallengeStore {
    const redis: RedisServer

    constructor (redis: RedisServer)
      ensures this.redis == redis
    {
      this.redis := redis;
    }

    method CreateChallenge(id: Id, record: ChallengeRecord, ttlSeconds: int)
      requires ttlSeconds >= 1
      modifies redis`db
      ensures redis.db == SetEx(old(redis.db), ChallengeKey(id), ChallengeValue(record), ttlSeconds, redis.now)
    {
      redis.Set(ChallengeKey(id), ChallengeValue(record), ttlSeconds);
    }

    method GetChallenge(id: Id) returns (r: Option<ChallengeRecord>)
      ensures r == match Get(redis.db, ChallengeKey(id), redis.now)
                   case Some(ChallengeValue(record)) => Some(record)
                   case _ => None
    {
      var raw := redis.GetKey(ChallengeKey(id));
      r := if raw.Some? && raw.value.ChallengeValue? then Some(raw.value.challenge) else None;
    }

    /** GET, TTL and SET as three commands. The count goes up by one, or nothing changes. */
    method IncrementAttempts(id: Id, d1: nat, d2: nat) returns (r: Option<int>)
      modifies redis
      ensures old(redis.now) <= redis.now <= old(redis.now) + d1 + d2
      ensures var key := ChallengeKey(id);
              var readAt := old(redis.now) + d1;
              if HasSeconds(old(redis.db), key, readAt) && old(redis.db)[key].value.ChallengeValue? then
                var c := old(redis.db)[key].value.challenge;
                r == Some(c.attemptCount + 1)
                && Rewritten(old(redis.db), redis.db, key, ChallengeValue(c.(attemptCount := c.attemptCount + 1)), readAt, readAt + d2)
              else r == None && redis.db == old(redis.db)
    {
      var key := ChallengeKey(id);
      var raw := redis.GetKey(key);
      if raw.None? || !raw.value.ChallengeValue? {
        return None;
      }
      var record := raw.value.challenge;
      record := record.(attemptCount := record.attemptCount + 1);
      redis.Elapse(d1);
      var ttl := redis.Ttl(key);
      if ttl <= 0 {
        return None;
      }
      redis.Elapse(d2);
      redis.Set(key, ChallengeValue(record), ttl);
      r := Some(record.attemptCount);
    }

    /** The same three commands; a challenge that has gone stays gone. */
    method MarkChallengeUsed(id: Id, d1: nat, d2: nat)
      modifies redis
      ensures old(redis.now) <= redis.now <= old(redis.now) + d1 + d2
      ensures var key := ChallengeKey(id);
              var readAt := old(redis.now) + d1;
              if HasSeconds(old(redis.db), key, readAt) && old(redis.db)[key].value.ChallengeValue? then
                var c := old(redis.db)[key].value.challenge;
                Rewritten(old(redis.db), redis.db, key, ChallengeValue(c.(used := true)), readAt, readAt + d2)
              else redis.db == old(redis.db)
    {
      var key := ChallengeKey(id);
      var raw := redis.GetKey(key);
      if raw.None? || !raw.value.ChallengeValue? {
        return;
      }
      var record := raw.value.challenge.(used := true);
      redis.Elapse(d1);
      var ttl := redis.Ttl(key);
      if ttl <= 0 {
        return;
      }
      redis.Elapse(d2);
      redis.Set(key, ChallengeValue(record), ttl);
    }

    method DeleteChallenge(id: Id)
      modifies redis`db
      ensures redis.db == Del(old(redis.db), ChallengeKey(id))
    {
      redis.DelKey(ChallengeKey(id));
    }

    /** `code` is the random code. */
    method IssueAuthorizationCode(code: Id, payload: AuthorizationCodePayload, ttlSeconds: int)
      requires ttlSeconds >= 1
      modifies redis`db
      ensures redis.db == SetEx(old(redis.db), CodeKey(code), CodeValue(payload), ttlSeconds, redis.now)
    {
      redis.Set(CodeKey(code), CodeValue(payload), ttlSeconds);
    }

    method ConsumeAuthorizationCode(code: Id) returns (r: Option<AuthorizationCodePayload>)
      modifies redis`db
      ensures r == match Get(old(redis.db), CodeKey(code), redis.now)
                   case Some(CodeValue(payload)) => Some(payload)
                   case _ => None
      ensures redis.db == Consumed(old(redis.db), CodeKey(code), redis.now)
    {
      var raw := redis.EvalConsume(CodeKey(code));
      r := if raw.Some? && raw.value.CodeValue? then Some(raw.value.code) else None;
    }

    method IssueRegistrationTicket(code: Id, payload: RegistrationTicketPayload, ttlSeconds: int)
      requires ttlSeconds >= 1
      modifies redis`db
      ensures redis.db == SetEx(old(redis.db), TicketKey(code), TicketValue(payload), ttlSeconds, redis.now)
    {
      redis.Set(TicketKey(code), TicketValue(payload), ttlSeconds);
    }

    method ConsumeRegistrationTicket(code: Id) returns (r: Option<RegistrationTicketPayload>)
      modifies redis`db
      ensures r == match Get(old(redis.db), TicketKey(code), redis.now)
                   case Some(TicketValue(payload)) => Some(payload)
                   case _ => None
      ensures redis.db == Consumed(old(redis.db), TicketKey(code), redis.now)
    {
      var raw := redis.EvalConsume(TicketKey(code));
      r := if raw.Some? && raw.value.TicketValue? then Some(raw.value.ticket) else None;
    }
  }

  class OAuthSessionStore {
    const redis: RedisServer

    constructor (redis: RedisServer)
      ensures this.redis == redis
    {
      this.redis := redis;
    }

    /** `sessionId` is the random session id. */
    method Create(sessionId: Id, session: OAuthSession)
      modifies redis`db
      ensures redis.db == SetEx(old(redis.db), SessionKey(sessionId), SessionValue(session), SESSION_TTL_SECONDS, redis.now)
    {
      redis.Set(SessionKey(sessionId), SessionValue(session), SESSION_TTL_SECONDS);
    }

    method GetSession(sessionId: Id) returns (r: Option<OAuthSession>)
      ensures r == match Get(redis.db, SessionKey(sessionId), redis.now)
                   case Some(SessionValue(session)) => Some(session)
                   case _ => None
    {
      var raw := redis.GetKey(SessionKey(sessionId));
      r := if raw.Some? && raw.value.SessionValue? then Some(raw.value.session) else None;
    }

    /** TTL, then SET: a session that is there keeps its remaining seconds; one that is not is
        written all the same, with a full time to live. */
    method Update(sessionId: Id, session: OAuthSession, d: nat)
      modifies redis
      ensures redis.now == old(redis.now) + d
      ensures var ttl := TtlReply(old(redis.db), SessionKey(sessionId), old(redis.now));
              redis.db == SetEx(old(redis.db), SessionKey(sessionId), SessionValue(session),
                                if ttl > 0 then ttl else SESSION_TTL_SECONDS, redis.now)
    {
      var ttl := redis.Ttl(SessionKey(sessionId));
      redis.Elapse(d);
      redis.Set(SessionKey(sessionId), SessionValue(session), if ttl > 0 then ttl else SESSION_TTL_SECONDS);
    }

    method Delete(sessionId: Id)
      modifies redis`db
      ensures redis.db == Del(old(redis.db), SessionKey(sessionId))
    {
      redis.DelKey(SessionKey(sessionId));
    }
  }

  // ---------------------------------------------------------------- what the commands add up to

  /** Issued and then consumed in time, a code gives back its payload, once; the key is gone. */
  lemma IssueThenConsume(db: Keyspace, k: Key, v: Value, ttlSeconds: int, setAt: int, readAt: int, laterAt: int)
    requires setAt <= readAt <= laterAt
    ensures var issued := SetEx(db, k, v, ttlSeconds, setAt);
            var spent := Consumed(issued, k, readAt);
            && (readAt < setAt + ttlSeconds * 1000 ==> Get(issued, k, readAt) == Some(v) && k !in spent)
            && (readAt >= setAt + ttlSeconds * 1000 ==> Get(issued, k, readAt) == None && spent == issued)
            && Get(spent, k, laterAt) == None
  {
  }

  /** `update` brings a deleted or expired session back for ten minutes. */
  lemma UpdateRevives(db: Keyspace, sid: Id, s: OAuthSession, readAt: int, setAt: int)
    requires !Live(db, SessionKey(sid), readAt) && readAt <= setAt
    ensures TtlReply(db, SessionKey(sid), readAt) <= 0
    ensures Get(SetEx(db, SessionKey(sid), SessionValue(s), SESSION_TTL_SECONDS, setAt), SessionKey(sid), setAt + 599_999)
            == Some(SessionValue(s))
  {
  }
}
