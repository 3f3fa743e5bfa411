/** Link tickets: a signed statement of who is linking, good once until it expires. */
module LinkTickets {
  import opened Wrappers
  import opened Records
  import opened RedisKeyspace

  /** `exp` is in seconds since the epoch. */
  datatype Payload = Payload(kisUserId: string, nonce: string, exp: int)

  /** HMAC-SHA256 in hexadecimal, and base64url of the JSON text with its inverse, which is None for
      anything that is not JSON with the three fields in their types. */
  datatype Codec = Codec(mac: (string, string) -> string, encode: Payload -> string, decode: string -> Option<Payload>)

  datatype Reason = Malformed | BadSignature | Expired | AlreadyUsed

  datatype ReadResult = Readable(payload: Payload) | Unreadable(reason: Reason)

  datatype VerifyResult = Ok(kisUserId: string) | Refused(reason: Reason)

  // ---------------------------------------------------------------- the text of a ticket

  /** `split('.')`. */
  function SplitDots(s: string): (r: seq<string>)
    ensures r != []
  {
    if s == "" then [""]
    else
      var rest := SplitDots(s[1..]);
      if s[0] == '.' then [""] + rest else [[s[0]] + rest[0]] + rest[1..]
  }

  function Mint(c: Codec, secret: string, p: Payload): string {
    c.encode(p) + "." + c.mac(secret, c.encode(p))
  }

  /** Format, signature and content, in this order. */
  function Read(c: Codec, secret: string, ticket: string): ReadResult {
    var parts := SplitDots(ticket);
    if |parts| != 2 then Unreadable(Malformed)
    else if parts[1] != c.mac(secret, parts[0]) then Unreadable(BadSignature)
    else if c.decode(parts[0]).None? then Unreadable(Malformed)
    else Readable(c.decode(parts[0]).value)
  }

  lemma {:induction false} SplitOfDotless(b: string)
    requires '.' !in b
    ensures SplitDots(b) == [b]
  {
    if b != "" {
      SplitOfDotless(b[1..]);
      assert [b[0]] + b[1..] == b;
    }
  }

  lemma {:induction false} SplitOfPair(a: string, b: string)
    requires '.' !in a && '.' !in b
    ensures SplitDots(a + "." + b) == [a, b]
  {
    var whole := a + "." + b;
    if a == "" {
      assert whole[1..] == b;
      SplitOfDotless(b);
    } else {
      assert whole[1..] == a[1..] + "." + b;
      SplitOfPair(a[1..], b);
      assert [a[0]] + a[1..] == a;
    }
  }

  /** The parts have no dots, and give the text back with dots between them. */
  lemma {:induction false} PartsAreDotless(s: string)
    ensures var parts := SplitDots(s);
            && (forall i :: 0 <= i < |parts| ==> '.' !in parts[i])
            && (|parts| == 1 ==> parts[0] == s)
            && (|parts| == 2 ==> parts[0] + "." + parts[1] == s)
  {
    if s != "" {
      PartsAreDotless(s[1..]);
      assert s == [s[0]] + s[1..];
      if |SplitDots(s)| == 2 && s[0] == '.' {
        assert "" + "." + s[1..] == s;
      } else if |SplitDots(s)| == 2 {
        var rest := SplitDots(s[1..]);
        assert [s[0]] + rest[0] + "." + rest[1] == [s[0]] + (rest[0] + "." + rest[1]);
      }
    }
  }

  /** The ticket is a body, a dot and a signature, without other dots. */
  ghost predicate InTwo(ticket: string, body: string, signature: string) {
    ticket == body + "." + signature && '.' !in body && '.' !in signature
  }

  /** A ticket reads as its content exactly if it is two parts, of which the second is the MAC of the
      first and the first decodes; the MAC is compared before the content is looked at. */
  lemma ReadIs(c: Codec, secret: string, ticket: string)
    ensures forall p :: Read(c, secret, ticket) == Readable(p)
                        <==> exists a, b :: InTwo(ticket, a, b) && b == c.mac(secret, a) && c.decode(a) == Some(p)
    ensures Read(c, secret, ticket) == Unreadable(BadSignature) <==> exists a, b :: InTwo(ticket, a, b) && b != c.mac(secret, a)
    ensures Read(c, secret, ticket).Unreadable? ==> Read(c, secret, ticket).reason in {Malformed, BadSignature}
  {
    hide SplitDots;
    var parts := SplitDots(ticket);
    PartsAreDotless(ticket);
    forall a, b | InTwo(ticket, a, b) ensures parts == [a, b] {
      SplitOfPair(a, b);
    }
    if |parts| == 2 {
      assert InTwo(ticket, parts[0], parts[1]);
    }
  }

  /** A minted ticket reads back as its payload under its own secret, and as a bad signature under
      one whose MAC differs. */
  lemma MintedIsRead(c: Codec, secret: string, p: Payload, other: string)
    requires c.decode(c.encode(p)) == Some(p)
    requires '.' !in c.encode(p) && '.' !in c.mac(secret, c.encode(p))
    ensures Read(c, secret, Mint(c, secret, p)) == Readable(p)
    ensures c.mac(other, c.encode(p)) != c.mac(secret, c.encode(p)) ==> Read(c, other, Mint(c, secret, p)) == Unreadable(BadSignature)
  {
    SplitOfPair(c.encode(p), c.mac(secret, c.encode(p)));
  }

  // ---------------------------------------------------------------- the service

  function TtlSeconds(exp: int, readAt: int): (ttl: int)
    ensures ttl >= 1 && ttl >= exp - readAt && (ttl == 1 || ttl == exp - readAt)
  {
    if exp - readAt > 1 then exp - readAt else 1
  }

  class LinkTicketService {
    const redis: RedisServer
    const c: Codec

    constructor (redis: RedisServer, c: Codec)
      ensures this.redis == redis && this.c == c
    {
      this.redis, this.c := redis, c;
    }

    /** Checks the ticket against the clock, then claims its nonce; `delay` milliseconds pass between
        the two. The ticket is accepted exactly when it reads, has not expired and its nonce is free. */
    method VerifyAndConsume(ticket: string, secret: string, delay: nat) returns (r: VerifyResult)
      modifies redis
      ensures match Read(c, secret, ticket)
              case Unreadable(reason) => r == Refused(reason) && redis.db == old(redis.db)
              case Readable(p) =>
                var now := old(redis.now) / 1000;
                if p.exp <= now then r == Refused(Expired) && redis.db == old(redis.db)
                else
                  && redis.now == old(redis.now) + delay
                  && (if LinkNonceKey(p.nonce) in old(redis.db)
                         && (var left := old(redis.db)[LinkNonceKey(p.nonce)].expiresAt; left.Some? ==> redis.now < left.value)
                      then r == Refused(AlreadyUsed) && redis.db == old(redis.db)
                      else
                        && r == Ok(p.kisUserId)
                        && redis.db == old(redis.db)[LinkNonceKey(p.nonce) := Entry(Claimed, Some(redis.now + (p.exp - now) * 1000))])
    {
      var parts := SplitDots(ticket);
      if |parts| != 2 {
        return Refused(Malformed);
      }
      var expected := c.mac(secret, parts[0]);
      if parts[1] != expected {
        return Refused(BadSignature);
      }
      var payload := c.decode(parts[0]);
      if payload.None? {
        return Refused(Malformed);
      }
      var now := redis.now / 1000;
      if payload.value.exp <= now {
        return Refused(Expired);
      }
      redis.Elapse(delay);
      var claimed := redis.SetNx(LinkNonceKey(payload.value.nonce), Claimed, TtlSeconds(payload.value.exp, now));
      if !claimed {
        return Refused(AlreadyUsed);
      }
      r := Ok(payload.value.kisUserId);
    }
  }

  // ---------------------------------------------------------------- single use under concurrency

  /** In the order Redis runs them: the claims of verifications of one ticket, each of which read
      the clock at `readAt` seconds before, and commands on other keys. */
  datatype Event = Claim(readAt: int, setAt: int) | Elsewhere(setAt: int)

  predicate Wins(k: Key, db: Keyspace, e: Event) {
    e.Claim? && !Live(db, k, e.setAt)
  }

  ghost predicate Changes(k: Key, exp: int, db: Keyspace, e: Event, db': Keyspace) {
    match e
    case Claim(readAt, setAt) =>
      readAt < exp && readAt * 1000 <= setAt
      && db' == if Live(db, k, setAt) then db else SetEx(db, k, Claimed, TtlSeconds(exp, readAt), setAt)
    case Elsewhere(_) => (k in db' <==> k in db) && (k in db ==> db'[k] == db[k])
  }

  ghost predicate IsTrace(k: Key, exp: int, dbs: seq<Keyspace>, events: seq<Event>) {
    && |dbs| == |events| + 1
    && (forall i {:trigger events[i]} :: 0 <= i < |events| ==> Changes(k, exp, dbs[i], events[i], dbs[i + 1]))
    && (forall i, j :: 0 <= i <= j < |events| ==> events[i].setAt <= events[j].setAt)
  }

  /** When the claim won by event `i` lapses: never before the ticket expires. */
  function Lapse(exp: int, e: Event): (t: int)
    requires e.Claim?
    ensures e.readAt * 1000 <= e.setAt ==> t >= exp * 1000
  {
    e.setAt + TtlSeconds(exp, e.readAt) * 1000
  }

  lemma StepOfTrace(k: Key, exp: int, dbs: seq<Keyspace>, events: seq<Event>, i: nat)
    requires IsTrace(k, exp, dbs, events) && i < |events|
    ensures |dbs| == |events| + 1 && Changes(k, exp, dbs[i], events[i], dbs[i + 1])
    ensures forall j :: 0 <= j <= i ==> events[j].setAt <= events[i].setAt
  {
    hide Changes;
    assert Changes(k, exp, dbs[i], events[i], dbs[i + 1]);
  }

  /** Once won, the nonce key is held at least until the claim lapses. */
  lemma {:induction false} ClaimIsHeld(k: Key, exp: int, dbs: seq<Keyspace>, events: seq<Event>, i: nat, j: nat)
    requires IsTrace(k, exp, dbs, events) && i < j <= |events| && Wins(k, dbs[i], events[i])
    ensures k in dbs[j] && dbs[j][k].expiresAt.Some? && dbs[j][k].expiresAt.value >= Lapse(exp, events[i])
    decreases j
  {
    StepOfTrace(k, exp, dbs, events, j - 1);
    if i < j - 1 {
      ClaimIsHeld(k, exp, dbs, events, i, j - 1);
    }
  }

  /** If two verifications of one ticket are accepted, the second made its claim after the first
      had lapsed, hence after the ticket had expired. */
  lemma AcceptedTwiceOnlyLate(k: Key, exp: int, dbs: seq<Keyspace>, events: seq<Event>, i: nat, j: nat)
    requires IsTrace(k, exp, dbs, events) && i < j < |events| && Wins(k, dbs[i], events[i]) && Wins(k, dbs[j], events[j])
    ensures events[j].setAt >= Lapse(exp, events[i]) >= exp * 1000
  {
    ClaimIsHeld(k, exp, dbs, events, i, j);
    StepOfTrace(k, exp, dbs, events, i);
    StepOfTrace(k, exp, dbs, events, j);
  }

  /** With every claim made before the ticket expires, it is accepted at most once. */
  lemma AcceptedOnce(k: Key, exp: int, dbs: seq<Keyspace>, events: seq<Event>, i: nat, j: nat)
    requires IsTrace(k, exp, dbs, events) && i < |events| && j < |events|
    requires Wins(k, dbs[i], events[i]) && Wins(k, dbs[j], events[j])
    requires events[i].setAt < exp * 1000 && events[j].setAt < exp * 1000
    ensures i == j
  {
    if i < j {
      AcceptedTwiceOnlyLate(k, exp, dbs, events, i, j);
    } else if j < i {
      AcceptedTwiceOnlyLate(k, exp, dbs, events, j, i);
    }
  }

  /** A nonce key that is there was put there by a claim that won, and expires when that claim lapses. */
  lemma {:induction false} HeldByAWinner(k: Key, exp: int, dbs: seq<Keyspace>, events: seq<Event>, j: nat)
    requires IsTrace(k, exp, dbs, events) && j <= |events| && k !in dbs[0] && k in dbs[j]
    ensures exists i {:trigger events[i]} ::
              0 <= i < j && Wins(k, dbs[i], events[i]) && dbs[j][k].expiresAt == Some(Lapse(exp, events[i]))
    decreases j
  {
    StepOfTrace(k, exp, dbs, events, j - 1);
    if Wins(k, dbs[j - 1], events[j - 1]) {
      assert dbs[j][k].expiresAt == Some(Lapse(exp, events[j - 1]));
    } else {
      HeldByAWinner(k, exp, dbs, events, j - 1);
    }
  }

  /** Exactly when a claim comes late does single use fail: a claim wins if and only if every claim that
      won before it has lapsed. */
  lemma ClaimWinsExactlyWhenLapsed(k: Key, exp: int, dbs: seq<Keyspace>, events: seq<Event>, j: nat)
    requires IsTrace(k, exp, dbs, events) && j < |events| && events[j].Claim? && k !in dbs[0]
    ensures Wins(k, dbs[j], events[j])
            <==> forall i :: 0 <= i < j && Wins(k, dbs[i], events[i]) ==> events[j].setAt >= Lapse(exp, events[i])
  {
    if Wins(k, dbs[j], events[j]) {
      forall i | 0 <= i < j && Wins(k, dbs[i], events[i]) ensures events[j].setAt >= Lapse(exp, events[i]) {
        ClaimIsHeld(k, exp, dbs, events, i, j);
      }
    } else {
      HeldByAWinner(k, exp, dbs, events, j);
    }
  }

  /** It happens: two verifications read the clock in the ticket's last second, and the claim of one
      reaches Redis when the ticket, and with it the other's claim, has expired. Both are accepted. */
  lemma AcceptedTwice(k: Key, exp: int) returns (dbs: seq<Keyspace>, events: seq<Event>)
    ensures events == [Claim(exp - 1, (exp - 1) * 1000), Claim(exp - 1, exp * 1000)]
    ensures IsTrace(k, exp, dbs, events) && dbs[0] == map[]
    ensures Wins(k, dbs[0], events[0]) && Wins(k, dbs[1], events[1])
  {
    var none: Keyspace := map[];
    var first := SetEx(none, k, Claimed, 1, (exp - 1) * 1000);
    dbs := [none, first, SetEx(first, k, Claimed, 1, exp * 1000)];
    events := [Claim(exp - 1, (exp - 1) * 1000), Claim(exp - 1, exp * 1000)];
  }
}
