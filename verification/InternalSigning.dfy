/** Signed internal requests: the signed payload, the headers, and the verifier with its in-process
    replay cache. Times are milliseconds since the epoch. */
module InternalSigning {
  import opened Wrappers
  import CanonicalJson

  /** SHA-256 and HMAC-SHA256 in hexadecimal, JavaScript's `Number` (None for anything that is not
      finite), and the decimal text of an integer. */
  datatype Primitives = Primitives(
    hash: CanonicalJson.Text -> string,
    mac: (string, string) -> string,
    number: string -> Option<real>,
    decimal: int -> string)

  /** `path` is what `pathWithQuery` made of the URL; a header is its first value. */
  datatype Request = Request(
    verb: string,
    path: string,
    body: CanonicalJson.Json,
    timestamp: Option<string>,
    nonce: Option<string>,
    signature: Option<string>)

  datatype Reason = MissingSignatureHeaders | InvalidTimestamp | TimestampOutsideWindow | ReplayedNonce | SignatureMismatch

  datatype VerifyResult = Accepted | Rejected(reason: Reason)

  type NonceCache = map<string, int>

  // ---------------------------------------------------------------- the signed payload

  function UpperChar(c: char): char {
    if 'a' <= c <= 'z' then (c as int - 32) as char else c
  }

  function Upper(s: string): (r: string)
    ensures |r| == |s| && forall i :: 0 <= i < |s| ==> r[i] == UpperChar(s[i])
  {
    if s == "" then "" else [UpperChar(s[0])] + Upper(s[1..])
  }

  function JoinLines(fields: seq<string>): string {
    if fields == [] then ""
    else if |fields| == 1 then fields[0]
    else fields[0] + "\n" + JoinLines(fields[1..])
  }

  function Payload(verb: string, path: string, timestamp: string, nonce: string, bodyHash: string): string {
    JoinLines([Upper(verb), if path == "" then "/" else path, timestamp, nonce, bodyHash])
  }

  function Signature(p: Primitives, secret: string, verb: string, path: string, body: CanonicalJson.Json,
                     timestamp: string, nonce: string): string {
    p.mac(secret, Payload(verb, path, timestamp, nonce, p.hash(CanonicalJson.Print(body))))
  }

  /** `signedInternalHeaders` at time `now` with a random nonce. */
  function Signed(p: Primitives, secret: string, verb: string, path: string, body: CanonicalJson.Json, now: int, nonce: string): Request {
    var timestamp := p.decimal(now / 1000);
    Request(verb, path, body, Some(timestamp), Some(nonce), Some(Signature(p, secret, verb, path, body, timestamp, nonce)))
  }

  // ---------------------------------------------------------------- the verifier's decisions

  function Skew(maxSkewSeconds: real): (s: int)
    ensures s >= 30
  {
    if maxSkewSeconds.Floor > 30 then maxSkewSeconds.Floor else 30
  }

  predicate Given(h: Option<string>) {
    h.Some? && h.value != ""
  }

  predicate InWindow(ts: real, skew: int, now: int) {
    -(skew as real) <= (now / 1000) as real - ts <= skew as real
  }

  /** The checks before the cache is looked at. */
  function Screen(p: Primitives, skew: int, q: Request, now: int): Option<Reason> {
    if !Given(q.timestamp) || !Given(q.nonce) || !Given(q.signature) then Some(MissingSignatureHeaders)
    else if p.number(q.timestamp.value).None? then Some(InvalidTimestamp)
    else if !InWindow(p.number(q.timestamp.value).value, skew, now) then Some(TimestampOutsideWindow)
    else None
  }

  function Pruned(cache: NonceCache, now: int): NonceCache {
    map k | k in cache && cache[k] > now :: cache[k]
  }

  predicate Matches(p: Primitives, secret: string, q: Request)
    requires q.timestamp.Some? && q.nonce.Some? && q.signature.Some?
  {
    q.signature.value == Signature(p, secret, q.verb, q.path, q.body, q.timestamp.value, q.nonce.value)
  }

  /** What the verifier answers; `read1` and `read2` are its two readings of the clock. */
  function Answer(p: Primitives, secret: string, skew: int, cache: NonceCache, q: Request, read1: int, read2: int): VerifyResult {
    var screened := Screen(p, skew, q, read1);
    if screened.Some? then Rejected(screened.value)
    else if q.nonce.value in Pruned(cache, read2) then Rejected(ReplayedNonce)
    else if !Matches(p, secret, q) then Rejected(SignatureMismatch)
    else Accepted
  }

  /** What the verifier leaves in the cache. */
  function CacheAfter(p: Primitives, secret: string, skew: int, cache: NonceCache, q: Request, read1: int, read2: int): NonceCache {
    if Screen(p, skew, q, read1).Some? then cache
    else if Answer(p, secret, skew, cache, q, read1, read2).Accepted? then Pruned(cache, read2)[q.nonce.value := read2 + skew * 1000]
    else Pruned(cache, read2)
  }

  // ---------------------------------------------------------------- what signing and verifying come to

  /** `u` is `s` with its lower-case letters raised. */
  predicate Raised(s: string, u: string) {
    |u| == |s| && forall i :: 0 <= i < |s| ==> u[i] == if 'a' <= s[i] <= 'z' then (s[i] as int - 'a' as int + 'A' as int) as char else s[i]
  }

  /** The signature is the MAC of five lines: verb, path, timestamp, nonce and the hash of the body's
      canonical text. */
  ghost predicate SignedBy(p: Primitives, secret: string, verb: string, path: string, body: CanonicalJson.Json,
                           timestamp: string, nonce: string, signature: string) {
    exists u :: Raised(verb, u) && signature == p.mac(secret, u + "\n" + (if path == "" then "/" else path) + "\n" + timestamp + "\n" + nonce
                                                              + "\n" + p.hash(CanonicalJson.Print(body)))
  }

  predicate Filled(h: Option<string>) {
    h.Some? && |h.value| > 0
  }

  /** The first rule that fails answers, the cache being looked at from the third on; a nonce is kept
      exactly by acceptance, for the skew, and entries go when they have expired. The skew is the
      configured number of whole seconds, or thirty if that is less. */
  ghost predicate VerifyComesTo(p: Primitives, secret: string, maxSkewSeconds: real, cache: NonceCache, q: Request, read1: int, read2: int,
                                r: VerifyResult, cache': NonceCache) {
    var skew := if maxSkewSeconds >= 30.0 then maxSkewSeconds.Floor else 30;
    if !Filled(q.timestamp) || !Filled(q.nonce) || !Filled(q.signature) then r == Rejected(MissingSignatureHeaders) && cache' == cache
    else if p.number(q.timestamp.value).None? then r == Rejected(InvalidTimestamp) && cache' == cache
    else if p.number(q.timestamp.value).value > (read1 / 1000 + skew) as real
            || p.number(q.timestamp.value).value < (read1 / 1000 - skew) as real
    then r == Rejected(TimestampOutsideWindow) && cache' == cache
    else
      var nonce := q.nonce.value;
      && (forall k :: k != nonce ==> (k in cache' <==> k in cache && cache[k] > read2) && (k in cache' ==> cache'[k] == cache[k]))
      && (if nonce in cache && cache[nonce] > read2 then
            r == Rejected(ReplayedNonce) && nonce in cache' && cache'[nonce] == cache[nonce]
          else if !SignedBy(p, secret, q.verb, q.path, q.body, q.timestamp.value, nonce, q.signature.value) then
            r == Rejected(SignatureMismatch) && nonce !in cache'
          else
            r == Accepted && nonce in cache' && cache'[nonce] == read2 + skew * 1000)
  }

  lemma UpperIs(s: string)
    ensures Raised(s, Upper(s)) && forall u :: Raised(s, u) ==> u == Upper(s)
  {
    hide UpperChar;
    forall c ensures UpperChar(c) == if 'a' <= c <= 'z' then (c as int - 'a' as int + 'A' as int) as char else c {
      UpperCharIs(c);
    }
  }

  lemma UpperCharIs(c: char)
    ensures UpperChar(c) == if 'a' <= c <= 'z' then (c as int - 'a' as int + 'A' as int) as char else c
  {
  }

  lemma FiveLines(a: string, b: string, c: string, d: string, e: string)
    ensures JoinLines([a, b, c, d, e]) == a + "\n" + b + "\n" + c + "\n" + d + "\n" + e
  {
    assert [a, b, c, d, e][1..] == [b, c, d, e];
    assert [b, c, d, e][1..] == [c, d, e];
    assert [c, d, e][1..] == [d, e];
    assert [d, e][1..] == [e];
    assert JoinLines([d, e]) == d + "\n" + e;
    assert JoinLines([c, d, e]) == c + "\n" + (d + "\n" + e);
    assert JoinLines([b, c, d, e]) == b + "\n" + (c + "\n" + (d + "\n" + e));
  }

  lemma SignatureIs(p: Primitives, secret: string, verb: string, path: string, body: CanonicalJson.Json,
                    timestamp: string, nonce: string, signature: string)
    ensures SignedBy(p, secret, verb, path, body, timestamp, nonce, signature)
            <==> signature == Signature(p, secret, verb, path, body, timestamp, nonce)
  {
    hide Raised, Upper, JoinLines, CanonicalJson.Print;
    UpperIs(verb);
    FiveLines(Upper(verb), if path == "" then "/" else path, timestamp, nonce, p.hash(CanonicalJson.Print(body)));
  }

  /** What the signer sends: the whole seconds, the nonce, and the MAC of the five lines. */
  lemma SignedHeaders(p: Primitives, secret: string, verb: string, path: string, body: CanonicalJson.Json, now: int, nonce: string)
    ensures var q := Signed(p, secret, verb, path, body, now, nonce);
            && q.timestamp == Some(p.decimal(now / 1000)) && q.nonce == Some(nonce) && q.signature.Some?
            && SignedBy(p, secret, verb, path, body, q.timestamp.value, nonce, q.signature.value)
  {
    hide Signature, SignedBy;
    SignatureIs(p, secret, verb, path, body, p.decimal(now / 1000), nonce,
                Signature(p, secret, verb, path, body, p.decimal(now / 1000), nonce));
  }

  lemma WindowIs(ts: real, t: int, skew: int)
    ensures -(skew as real) <= t as real - ts <= skew as real <==> !(ts > (t + skew) as real || ts < (t - skew) as real)
  {
    assert (t + skew) as real == t as real + skew as real;
    assert (t - skew) as real == t as real - skew as real;
  }

  lemma SkewIs(maxSkewSeconds: real)
    ensures Skew(maxSkewSeconds) == if maxSkewSeconds >= 30.0 then maxSkewSeconds.Floor else 30
  {
  }

  lemma VerifyIs(p: Primitives, secret: string, maxSkewSeconds: real, cache: NonceCache, q: Request, read1: int, read2: int)
    ensures VerifyComesTo(p, secret, maxSkewSeconds, cache, q, read1, read2,
                          Answer(p, secret, Skew(maxSkewSeconds), cache, q, read1, read2),
                          CacheAfter(p, secret, Skew(maxSkewSeconds), cache, q, read1, read2))
  {
    hide Signature, SignedBy, Skew;
    SkewIs(maxSkewSeconds);
    if Given(q.timestamp) && Given(q.nonce) && Given(q.signature) {
      SignatureIs(p, secret, q.verb, q.path, q.body, q.timestamp.value, q.nonce.value, q.signature.value);
      if p.number(q.timestamp.value).Some? {
        WindowIs(p.number(q.timestamp.value).value, read1 / 1000, Skew(maxSkewSeconds));
      }
    }
  }

  /** The module-level nonce cache and the verifier that prunes it while iterating over it. */
  class Verifier {
    const p: Primitives
    const secret: string
    const maxSkewSeconds: real
    var nonceCache: NonceCache

    constructor (p: Primitives, secret: string, maxSkewSeconds: real)
      ensures this.p == p && this.secret == secret && this.maxSkewSeconds == maxSkewSeconds && nonceCache == map[]
    {
      this.p, this.secret, this.maxSkewSeconds, nonceCache := p, secret, maxSkewSeconds, map[];
    }

    /** Delete every entry that has expired. */
    method Prune(now: int)
      modifies this`nonceCache
      ensures nonceCache == Pruned(old(nonceCache), now)
    {
      var entries := nonceCache;
      var todo := entries.Keys;
      while todo != {}
        invariant todo <= entries.Keys
        invariant forall k :: k in nonceCache <==> k in entries && (k in todo || entries[k] > now)
        invariant forall k :: k in nonceCache ==> nonceCache[k] == entries[k]
        decreases todo
      {
        var key :| key in todo;
        if entries[key] <= now {
          nonceCache := nonceCache - {key};
        }
        todo := todo - {key};
      }
      assert nonceCache == Pruned(entries, now);
    }

    method Verify(q: Request, read1: int, read2: int) returns (r: VerifyResult)
      modifies this`nonceCache
      ensures r == Answer(p, secret, Skew(maxSkewSeconds), old(nonceCache), q, read1, read2)
      ensures nonceCache == CacheAfter(p, secret, Skew(maxSkewSeconds), old(nonceCache), q, read1, read2)
      ensures VerifyComesTo(p, secret, maxSkewSeconds, old(nonceCache), q, read1, read2, r, nonceCache)
    {
      hide VerifyComesTo;
      VerifyIs(p, secret, maxSkewSeconds, nonceCache, q, read1, read2);
      if !Given(q.timestamp) || !Given(q.nonce) || !Given(q.signature) {
        return Rejected(MissingSignatureHeaders);
      }
      var ts := p.number(q.timestamp.value);
      if ts.None? {
        return Rejected(InvalidTimestamp);
      }
      var skew := Skew(maxSkewSeconds);
      var off := (read1 / 1000) as real - ts.value;
      if (if off < 0.0 then -off else off) > skew as real {
        return Rejected(TimestampOutsideWindow);
      }
      var nonce := q.nonce.value;
      Prune(read2);
      if nonce in nonceCache {
        return Rejected(ReplayedNonce);
      }
      var expected := Signature(p, secret, q.verb, q.path, q.body, q.timestamp.value, nonce);
      if expected != q.signature.value {
        return Rejected(SignatureMismatch);
      }
      nonceCache := nonceCache[nonce := read2 + skew * 1000];
      r := Accepted;
    }
  }
}
