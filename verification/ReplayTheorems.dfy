/** How often a signed request can be accepted over any sequence of calls of the verifier. */
module ReplayTheorems {
  import opened Wrappers
  import opened InternalSigning

  /** One call, with the verifier's two readings of the clock. */
  datatype Call = Call(q: Request, read1: int, read2: int)

  /** A verifier's fixed settings. */
  datatype Setting = Setting(p: Primitives, secret: string, maxSkewSeconds: real) {
    function S(): (s: int)
      ensures s >= 30
    {
      Skew(maxSkewSeconds)
    }
  }

  /** Calls run one after the other under a clock that never goes back. */
  ghost predicate Ordered(calls: seq<Call>) {
    && (forall i :: 0 <= i < |calls| ==> calls[i].read1 <= calls[i].read2)
    && (forall i, j :: 0 <= i < j < |calls| ==> calls[i].read2 <= calls[j].read1)
  }

  /** The cache before call `i`, starting from an empty one. */
  function CacheAt(e: Setting, calls: seq<Call>, i: nat): NonceCache
    requires i <= |calls|
  {
    if i == 0 then map[]
    else CacheAfter(e.p, e.secret, e.S(), CacheAt(e, calls, i - 1), calls[i - 1].q, calls[i - 1].read1, calls[i - 1].read2)
  }

  function AnswerAt(e: Setting, calls: seq<Call>, i: nat): VerifyResult
    requires i < |calls|
  {
    Answer(e.p, e.secret, e.S(), CacheAt(e, calls, i), calls[i].q, calls[i].read1, calls[i].read2)
  }

  // ---------------------------------------------------------------- the cache refines an unbounded log

  /** Every acceptance ever, with its expiry; nothing is deleted. */
  type Log = seq<(string, int)>

  predicate Holds(log: Log, nonce: string, now: int) {
    exists n :: 0 <= n < |log| && log[n].0 == nonce && log[n].1 > now
  }

  function LogAnswer(e: Setting, log: Log, c: Call): VerifyResult {
    var screened := Screen(e.p, e.S(), c.q, c.read1);
    if screened.Some? then Rejected(screened.value)
    else if Holds(log, c.q.nonce.value, c.read2) then Rejected(ReplayedNonce)
    else if !Matches(e.p, e.secret, c.q) then Rejected(SignatureMismatch)
    else Accepted
  }

  function Logged(e: Setting, log: Log, c: Call): Log {
    if LogAnswer(e, log, c).Accepted? then log + [(c.q.nonce.value, c.read2 + e.S() * 1000)] else log
  }

  /** The log before call `i`. */
  function LogAt(e: Setting, calls: seq<Call>, i: nat): Log
    requires i <= |calls|
  {
    if i == 0 then [] else Logged(e, LogAt(e, calls, i - 1), calls[i - 1])
  }

  /** From time `now` on, cache and log hold the same nonces. */
  ghost predicate Agree(cache: NonceCache, log: Log, now: int) {
    forall nonce, t :: t >= now ==> ((nonce in cache && cache[nonce] > t) <==> Holds(log, nonce, t))
  }

  lemma HoldsMore(log: Log, entry: (string, int), nonce: string, t: int)
    ensures Holds(log + [entry], nonce, t) <==> Holds(log, nonce, t) || (entry.0 == nonce && entry.1 > t)
  {
    var more := log + [entry];
    if Holds(log, nonce, t) {
      var n :| 0 <= n < |log| && log[n].0 == nonce && log[n].1 > t;
      assert more[n] == log[n];
    }
    if entry.0 == nonce && entry.1 > t {
      assert more[|log|] == entry;
    }
  }

  /** One call: the same answer, and agreement from then on. */
  lemma AgreeStep(e: Setting, cache: NonceCache, log: Log, c: Call)
    requires Agree(cache, log, c.read1) && c.read1 <= c.read2
    ensures Answer(e.p, e.secret, e.S(), cache, c.q, c.read1, c.read2) == LogAnswer(e, log, c)
    ensures Agree(CacheAfter(e.p, e.secret, e.S(), cache, c.q, c.read1, c.read2), Logged(e, log, c), c.read2)
  {
    hide Matches, Holds, InWindow;
    var cache' := CacheAfter(e.p, e.secret, e.S(), cache, c.q, c.read1, c.read2);
    if LogAnswer(e, log, c).Accepted? {
      var entry := (c.q.nonce.value, c.read2 + e.S() * 1000);
      forall nonce, t | t >= c.read2 ensures (nonce in cache' && cache'[nonce] > t) <==> Holds(log + [entry], nonce, t) {
        HoldsMore(log, entry, nonce, t);
        if nonce == c.q.nonce.value {
          HoldsLess(log, nonce, c.read2, t);
        }
      }
    }
  }

  lemma HoldsLess(log: Log, nonce: string, t: int, t': int)
    requires t <= t' && !Holds(log, nonce, t)
    ensures !Holds(log, nonce, t')
  {
  }

  lemma {:induction false} CacheAgrees(e: Setting, calls: seq<Call>, i: nat, now: int)
    requires Ordered(calls) && i <= |calls| && (i > 0 ==> calls[i - 1].read2 <= now)
    ensures Agree(CacheAt(e, calls, i), LogAt(e, calls, i), now)
  {
    if i > 0 {
      CacheAgrees(e, calls, i - 1, calls[i - 1].read1);
      AgreeStep(e, CacheAt(e, calls, i - 1), LogAt(e, calls, i - 1), calls[i - 1]);
    }
  }

  /** The pruned cache answers every call as the unbounded log does. */
  lemma CacheRefinesLog(e: Setting, calls: seq<Call>, i: nat)
    requires Ordered(calls) && i < |calls|
    ensures AnswerAt(e, calls, i) == LogAnswer(e, LogAt(e, calls, i), calls[i])
  {
    CacheAgrees(e, calls, i, calls[i].read1);
    AgreeStep(e, CacheAt(e, calls, i), LogAt(e, calls, i), calls[i]);
  }

  // ---------------------------------------------------------------- rejected calls leave no trace

  function Without(calls: seq<Call>, r: nat): seq<Call>
    requires r < |calls|
  {
    calls[..r] + calls[r + 1..]
  }

  lemma {:induction false} SameLogBefore(e: Setting, calls: seq<Call>, calls': seq<Call>, i: nat)
    requires i <= |calls| && i <= |calls'| && calls[..i] == calls'[..i]
    ensures LogAt(e, calls, i) == LogAt(e, calls', i)
  {
    if i > 0 {
      assert calls[i - 1] == calls[..i][i - 1] == calls'[..i][i - 1] == calls'[i - 1];
      assert calls[..i - 1] == calls[..i][..i - 1] && calls'[..i - 1] == calls'[..i][..i - 1];
      SameLogBefore(e, calls, calls', i - 1);
    }
  }

  lemma {:induction false} SameLogAfter(e: Setting, calls: seq<Call>, r: nat, i: nat)
    requires r < i <= |calls| && !LogAnswer(e, LogAt(e, calls, r), calls[r]).Accepted?
    ensures LogAt(e, calls, i) == LogAt(e, Without(calls, r), i - 1)
  {
    hide LogAnswer;
    if i == r + 1 {
      assert LogAt(e, calls, i) == LogAt(e, calls, r);
      SameLogBefore(e, calls, Without(calls, r), r);
    } else {
      SameLogAfter(e, calls, r, i - 1);
      assert Without(calls, r)[i - 2] == calls[i - 1];
    }
  }

  lemma WithoutIsOrdered(calls: seq<Call>, r: nat)
    requires Ordered(calls) && r < |calls|
    ensures Ordered(Without(calls, r))
  {
  }

  /** Had a rejected call not been made, every other call would have been answered the same: no
      rejected request ever causes another to be rejected, or accepted. */
  lemma RejectedCallsLeaveNoTrace(e: Setting, calls: seq<Call>, r: nat, i: nat)
    requires Ordered(calls) && r < |calls| && i < |calls| && i != r && !AnswerAt(e, calls, r).Accepted?
    ensures AnswerAt(e, calls, i) == AnswerAt(e, Without(calls, r), if i < r then i else i - 1)
  {
    hide LogAnswer, AnswerAt;
    var others := Without(calls, r);
    WithoutIsOrdered(calls, r);
    CacheRefinesLog(e, calls, r);
    CacheRefinesLog(e, calls, i);
    if i < r {
      CacheRefinesLog(e, others, i);
      SameLogBefore(e, calls, others, i);
      assert others[i] == calls[i];
    } else {
      CacheRefinesLog(e, others, i - 1);
      SameLogAfter(e, calls, r, i);
      assert others[i - 1] == calls[i];
    }
  }

  // ---------------------------------------------------------------- bounded replay

  lemma {:induction false} LogRemembers(e: Setting, calls: seq<Call>, i: nat, j: nat)
    requires i < j <= |calls| && LogAnswer(e, LogAt(e, calls, i), calls[i]).Accepted? && calls[i].q.nonce.Some?
    ensures exists n :: 0 <= n < |LogAt(e, calls, j)|
                        && LogAt(e, calls, j)[n] == (calls[i].q.nonce.value, calls[i].read2 + e.S() * 1000)
    decreases j
  {
    hide LogAnswer;
    var log := LogAt(e, calls, j - 1);
    if i == j - 1 {
      assert LogAt(e, calls, j)[|log|] == (calls[i].q.nonce.value, calls[i].read2 + e.S() * 1000);
    } else {
      LogRemembers(e, calls, i, j - 1);
      var n :| 0 <= n < |log| && log[n] == (calls[i].q.nonce.value, calls[i].read2 + e.S() * 1000);
      assert LogAt(e, calls, j)[n] == log[n];
    }
  }

  lemma AcceptedHasNonce(e: Setting, calls: seq<Call>, i: nat)
    requires i < |calls| && AnswerAt(e, calls, i).Accepted?
    ensures calls[i].q.nonce.Some? && calls[i].q.timestamp.Some?
    ensures e.p.number(calls[i].q.timestamp.value).Some?
    ensures InWindow(e.p.number(calls[i].q.timestamp.value).value, e.S(), calls[i].read1)
  {
  }

  /** Two acceptances of one nonce are a full skew apart. */
  lemma AcceptancesAreApart(e: Setting, calls: seq<Call>, i: nat, j: nat)
    requires Ordered(calls) && i < j < |calls| && calls[i].q.nonce == calls[j].q.nonce
    requires AnswerAt(e, calls, i).Accepted? && AnswerAt(e, calls, j).Accepted?
    ensures calls[i].read2 + e.S() * 1000 <= calls[j].read2
  {
    hide AnswerAt;
    CacheRefinesLog(e, calls, i);
    CacheRefinesLog(e, calls, j);
    AcceptedIsFree(e, LogAt(e, calls, i), calls[i]);
    LogRemembers(e, calls, i, j);
    AcceptedIsFree(e, LogAt(e, calls, j), calls[j]);
  }

  lemma AcceptedIsFree(e: Setting, log: Log, c: Call)
    requires LogAnswer(e, log, c).Accepted?
    ensures c.q.nonce.Some? && !Holds(log, c.q.nonce.value, c.read2)
  {
  }

  predicate SameHeaders(a: Request, b: Request) {
    a.timestamp == b.timestamp && a.nonce == b.nonce
  }

  /** Within one window, accepted timestamps are at most two skews apart. */
  lemma WindowIsTwoSkewsWide(ts: real, skew: int, t: int, u: int)
    requires InWindow(ts, skew, t) && InWindow(ts, skew, u)
    ensures u / 1000 - t / 1000 <= 2 * skew
  {
    assert (u / 1000 - t / 1000) as real == (u / 1000) as real - (t / 1000) as real;
    assert (2 * skew) as real == skew as real + skew as real;
  }

  /** With the readings of each call equal, the same signed headers are accepted at most three times. */
  lemma NeverFourTimes(e: Setting, calls: seq<Call>, i: nat, j: nat, k: nat, l: nat)
    requires Ordered(calls) && i < j < k < l < |calls|
    requires forall n :: n in [i, j, k, l] ==> calls[n].read1 == calls[n].read2 && SameHeaders(calls[n].q, calls[i].q)
    ensures !(forall n :: n in [i, j, k, l] ==> AnswerAt(e, calls, n).Accepted?)
  {
    hide AnswerAt, InWindow;
    assert i in [i, j, k, l] && j in [i, j, k, l] && k in [i, j, k, l] && l in [i, j, k, l];
    if forall n :: n in [i, j, k, l] ==> AnswerAt(e, calls, n).Accepted? {
      AcceptedHasNonce(e, calls, i);
      AcceptedHasNonce(e, calls, l);
      var ts, t, u := e.p.number(calls[i].q.timestamp.value).value, calls[i].read1, calls[l].read1;
      AcceptancesAreApart(e, calls, i, j);
      AcceptancesAreApart(e, calls, j, k);
      AcceptancesAreApart(e, calls, k, l);
      WindowIsTwoSkewsWide(ts, e.S(), t, u);
      assert false;
    }
  }

  /** Whatever passes between the two readings of a call, at most four times. */
  lemma NeverFiveTimes(e: Setting, calls: seq<Call>, i: nat, j: nat, k: nat, l: nat, m: nat)
    requires Ordered(calls) && i < j < k < l < m < |calls|
    requires forall n :: n in [i, j, k, l, m] ==> SameHeaders(calls[n].q, calls[i].q)
    ensures !(forall n :: n in [i, j, k, l, m] ==> AnswerAt(e, calls, n).Accepted?)
  {
    hide AnswerAt, InWindow;
    var all := [i, j, k, l, m];
    assert i in all && j in all && k in all && l in all && m in all;
    if forall n :: n in all ==> AnswerAt(e, calls, n).Accepted? {
      AcceptedHasNonce(e, calls, i);
      AcceptedHasNonce(e, calls, m);
      var ts, t, u := e.p.number(calls[i].q.timestamp.value).value, calls[i].read1, calls[m].read1;
      AcceptancesAreApart(e, calls, i, j);
      AcceptancesAreApart(e, calls, j, k);
      AcceptancesAreApart(e, calls, k, l);
      WindowIsTwoSkewsWide(ts, e.S(), t, u);
      assert false;
    }
  }

  /** Accepted after the second its timestamp names, a request is not accepted again. */
  lemma LateIsAcceptedOnce(e: Setting, calls: seq<Call>, i: nat, j: nat)
    requires Ordered(calls) && i < j < |calls| && SameHeaders(calls[i].q, calls[j].q)
    requires calls[i].read1 == calls[i].read2 && calls[j].read1 == calls[j].read2
    requires AnswerAt(e, calls, i).Accepted?
    requires (calls[i].read1 / 1000) as real > e.p.number(calls[i].q.timestamp.value).value
    ensures !AnswerAt(e, calls, j).Accepted?
  {
    hide AnswerAt, InWindow;
    if AnswerAt(e, calls, j).Accepted? {
      AcceptedHasNonce(e, calls, j);
      AcceptancesAreApart(e, calls, i, j);
      OneSkewLater(e.p.number(calls[i].q.timestamp.value).value, e.S(), calls[i].read1, calls[j].read1);
    }
  }

  lemma OneSkewLater(ts: real, skew: int, t: int, u: int)
    requires t + skew * 1000 <= u && (t / 1000) as real > ts
    ensures !InWindow(ts, skew, u)
  {
    assert t / 1000 + skew <= u / 1000;
    assert (t / 1000 + skew) as real == (t / 1000) as real + skew as real;
  }

  lemma WithinWindow(n: int, skew: int, d: int)
    requires -skew <= d <= skew
    ensures InWindow(n as real, skew, (n + d) * 1000)
  {
    assert (n + d) as real - n as real == d as real;
    assert (-skew) as real == -(skew as real);
  }

  /** The bound is reached: a request for the second `n` is accepted at the start, in the middle and
      at the end of its window. */
  lemma ThreeTimesHappens(e: Setting, q: Request, n: int)
    requires Given(q.timestamp) && Given(q.nonce) && Given(q.signature) && Matches(e.p, e.secret, q)
    requires e.p.number(q.timestamp.value) == Some(n as real)
    ensures var s := e.S();
            var calls := [Call(q, (n - s) * 1000, (n - s) * 1000), Call(q, n * 1000, n * 1000), Call(q, (n + s) * 1000, (n + s) * 1000)];
            Ordered(calls) && AnswerAt(e, calls, 0).Accepted? && AnswerAt(e, calls, 1).Accepted? && AnswerAt(e, calls, 2).Accepted?
  {
    hide Matches;
    var s := e.S();
    var calls := [Call(q, (n - s) * 1000, (n - s) * 1000), Call(q, n * 1000, n * 1000), Call(q, (n + s) * 1000, (n + s) * 1000)];
    WithinWindow(n, s, -s);
    WithinWindow(n, s, 0);
    WithinWindow(n, s, s);
    hide InWindow;
    assert CacheAt(e, calls, 1) == map[q.nonce.value := n * 1000];
    assert CacheAt(e, calls, 2) == map[q.nonce.value := (n + s) * 1000];
  }

  /** The verifier accepts the request at time `u`. */
  predicate AcceptedThen(e: Setting, cache: NonceCache, q: Request, u: int) {
    Answer(e.p, e.secret, e.S(), cache, q, u, u).Accepted?
  }

  /** The replay cache lets exactly those requests through a second time that were first accepted
      no later than the second their timestamp names. */
  lemma RepeatableExactly(e: Setting, cache: NonceCache, q: Request, t: int)
    requires AcceptedThen(e, cache, q, t)
    ensures q.timestamp.Some? && e.p.number(q.timestamp.value).Some?
    ensures var cache' := CacheAfter(e.p, e.secret, e.S(), cache, q, t, t);
            (exists u :: u >= t && AcceptedThen(e, cache', q, u))
            <==> (t / 1000) as real <= e.p.number(q.timestamp.value).value
  {
    hide Matches, InWindow;
    var ts, s := e.p.number(q.timestamp.value).value, e.S();
    var cache' := CacheAfter(e.p, e.secret, s, cache, q, t, t);
    if (t / 1000) as real <= ts {
      var u := t + s * 1000;
      LastMoment(ts, s, t);
      assert AcceptedThen(e, cache', q, u);
    } else {
      forall u | u >= t ensures !AcceptedThen(e, cache', q, u) {
        if t + s * 1000 <= u {
          OneSkewLater(ts, s, t, u);
        }
      }
    }
  }

  lemma LastMoment(ts: real, skew: int, t: int)
    requires InWindow(ts, skew, t) && (t / 1000) as real <= ts && skew >= 30
    ensures InWindow(ts, skew, t + skew * 1000)
  {
    assert (t + skew * 1000) / 1000 == t / 1000 + skew;
    assert (t / 1000 + skew) as real == (t / 1000) as real + skew as real;
  }
}
