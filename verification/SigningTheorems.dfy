/** What a signature covers, and how often one can be accepted. */
module SigningTheorems {
  import opened Wrappers
  import CanonicalJson
  import CanonicalProofs
  import opened InternalSigning

  // ---------------------------------------------------------------- the newline join

  predicate OneLine(s: string) {
    '\n' !in s
  }

  lemma {:induction false} FirstLine(a: string, b: string, x: string, y: string)
    requires OneLine(a) && OneLine(b) && a + "\n" + x == b + "\n" + y
    ensures a == b && x == y
  {
    var p, q := a + "\n" + x, b + "\n" + y;
    if a == "" || b == "" {
      assert p[0] == q[0];
      assert a == "" && b == "";
      assert p[1..] == x && q[1..] == y;
    } else {
      assert p[0] == a[0] && q[0] == b[0];
      assert p[1..] == a[1..] + "\n" + x && q[1..] == b[1..] + "\n" + y;
      FirstLine(a[1..], b[1..], x, y);
      assert a == [a[0]] + a[1..] && b == [b[0]] + b[1..];
    }
  }

  lemma NoLineBreak(a: string, b: string, x: string)
    requires OneLine(a)
    ensures a != b + "\n" + x
  {
    assert (b + "\n" + x)[|b|] == '\n';
  }

  /** Lines joined with newlines can be told apart again. */
  lemma {:induction false} JoinLinesIsInjective(a: seq<string>, b: seq<string>)
    requires |a| > 0 && |b| > 0 && (forall i :: 0 <= i < |a| ==> OneLine(a[i])) && (forall i :: 0 <= i < |b| ==> OneLine(b[i]))
    requires JoinLines(a) == JoinLines(b)
    ensures a == b
  {
    if |a| == 1 && |b| == 1 {
    } else if |a| == 1 {
      NoLineBreak(a[0], b[0], JoinLines(b[1..]));
    } else if |b| == 1 {
      NoLineBreak(b[0], a[0], JoinLines(a[1..]));
    } else {
      FirstLine(a[0], b[0], JoinLines(a[1..]), JoinLines(b[1..]));
      JoinLinesIsInjective(a[1..], b[1..]);
      assert a == [a[0]] + a[1..] && b == [b[0]] + b[1..];
    }
  }

  function RootedPath(path: string): string {
    if path == "" then "/" else path
  }

  lemma UpperIsOneLine(s: string)
    requires OneLine(s)
    ensures OneLine(Upper(s))
  {
    forall i | 0 <= i < |s| ensures Upper(s)[i] != '\n' {
      assert s[i] in s;
    }
  }

  /** The payload determines verb up to case, path, timestamp, nonce and body hash. */
  lemma PayloadDetermines(v1: string, p1: string, t1: string, n1: string, h1: string,
                          v2: string, p2: string, t2: string, n2: string, h2: string)
    requires OneLine(v1) && OneLine(p1) && OneLine(t1) && OneLine(n1) && OneLine(h1)
    requires OneLine(v2) && OneLine(p2) && OneLine(t2) && OneLine(n2) && OneLine(h2)
    requires Payload(v1, p1, t1, n1, h1) == Payload(v2, p2, t2, n2, h2)
    ensures Upper(v1) == Upper(v2) && RootedPath(p1) == RootedPath(p2) && t1 == t2 && n1 == n2 && h1 == h2
  {
    hide JoinLines, Upper;
    UpperIsOneLine(v1);
    UpperIsOneLine(v2);
    var a := [Upper(v1), RootedPath(p1), t1, n1, h1];
    var b := [Upper(v2), RootedPath(p2), t2, n2, h2];
    JoinLinesIsInjective(a, b);
    assert a[0] == b[0] && a[1] == b[1] && a[2] == b[2] && a[3] == b[3] && a[4] == b[4];
  }

  // ---------------------------------------------------------------- signer and verifier agree

  /** No collision of the hash and the MAC between these two messages. */
  ghost predicate NoCollision(p: Primitives, secret1: string, q1: Request, secret2: string, q2: Request)
    requires q1.timestamp.Some? && q1.nonce.Some? && q2.timestamp.Some? && q2.nonce.Some?
  {
    var b1, b2 := CanonicalJson.Print(q1.body), CanonicalJson.Print(q2.body);
    var m1 := Payload(q1.verb, q1.path, q1.timestamp.value, q1.nonce.value, p.hash(b1));
    var m2 := Payload(q2.verb, q2.path, q2.timestamp.value, q2.nonce.value, p.hash(b2));
    && (p.hash(b1) == p.hash(b2) ==> b1 == b2)
    && (p.mac(secret1, m1) == p.mac(secret2, m2) ==> secret1 == secret2 && m1 == m2)
  }

  predicate HeadersAreOneLine(p: Primitives, q: Request) {
    && OneLine(q.verb) && OneLine(q.path) && OneLine(p.hash(CanonicalJson.Print(q.body)))
    && (q.timestamp.Some? ==> OneLine(q.timestamp.value)) && (q.nonce.Some? ==> OneLine(q.nonce.value))
  }

  /** A request that carries the headers of a signed one matches its signature exactly when the
      secret, the verb up to case, the path and the body up to its canonical equivalence agree. */
  lemma SignatureCovers(p: Primitives, secret: string, q: Request, signer: string, verb: string, path: string,
                        body: CanonicalJson.Json, now: int, nonce: string)
    requires var s := Signed(p, signer, verb, path, body, now, nonce);
             && q.timestamp == s.timestamp && q.nonce == s.nonce && q.signature == s.signature
             && CanonicalJson.IsJson(q.body) && CanonicalJson.IsJson(body)
             && HeadersAreOneLine(p, q) && HeadersAreOneLine(p, s) && NoCollision(p, secret, q, signer, s)
    ensures Matches(p, secret, q) <==>
              secret == signer && Upper(q.verb) == Upper(verb) && RootedPath(q.path) == RootedPath(path)
              && CanonicalJson.Equiv(q.body, body)
  {
    hide Upper, JoinLines, CanonicalJson.Print, CanonicalJson.Equiv, CanonicalJson.IsJson;
    CanonicalProofs.PrintIsCanonical(q.body, body);
    var h1, h2 := p.hash(CanonicalJson.Print(q.body)), p.hash(CanonicalJson.Print(body));
    if Matches(p, secret, q) {
      PayloadDetermines(q.verb, q.path, q.timestamp.value, nonce, h1, verb, path, q.timestamp.value, nonce, h2);
    }
  }

  /** The verifier accepts what the signer made exactly when all of that agrees, the timestamp is in
      the window and the nonce is not held by a live entry. */
  lemma VerifierAcceptsSigned(p: Primitives, secret: string, skew: int, cache: NonceCache, q: Request, read1: int, read2: int,
                              signer: string, verb: string, path: string, body: CanonicalJson.Json, now: int, nonce: string)
    requires var s := Signed(p, signer, verb, path, body, now, nonce);
             && q.timestamp == s.timestamp && q.nonce == s.nonce && q.signature == s.signature
             && CanonicalJson.IsJson(q.body) && CanonicalJson.IsJson(body)
             && HeadersAreOneLine(p, q) && HeadersAreOneLine(p, s) && NoCollision(p, secret, q, signer, s)
             && Given(s.timestamp) && Given(s.nonce) && Given(s.signature)
    requires p.number(p.decimal(now / 1000)) == Some((now / 1000) as real)
    ensures Answer(p, secret, skew, cache, q, read1, read2).Accepted? <==>
              && secret == signer && Upper(q.verb) == Upper(verb) && RootedPath(q.path) == RootedPath(path)
              && CanonicalJson.Equiv(q.body, body)
              && -skew <= read1 / 1000 - now / 1000 <= skew
              && !(nonce in cache && cache[nonce] > read2)
  {
    hide Upper, JoinLines, CanonicalJson.Print, CanonicalJson.Equiv, CanonicalJson.IsJson, Matches;
    SignatureCovers(p, secret, q, signer, verb, path, body, now, nonce);
    assert InWindow((now / 1000) as real, skew, read1) <==> -skew <= read1 / 1000 - now / 1000 <= skew by {
      WindowOfIntegers(now / 1000, skew, read1 / 1000);
    }
  }

  lemma WindowOfIntegers(ts: int, skew: int, t: int)
    ensures -(skew as real) <= t as real - ts as real <= skew as real <==> -skew <= t - ts <= skew
  {
    assert (t - ts) as real == t as real - ts as real;
    assert (-skew) as real == -(skew as real);
  }
}
