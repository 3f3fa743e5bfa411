/** `escapeHtml`: five whole-string replacements, one after the other. */
module Page {

  /** `value.replace(/c/g, to)` */
  function ReplaceAll(s: string, c: char, to: string): string {
    if s == "" then "" else (if s[0] == c then to else [s[0]]) + ReplaceAll(s[1..], c, to)
  }

  const AMP := "&amp;"
  const LT := "&lt;"
  const GT := "&gt;"
  const QUOT := "&quot;"
  const APOS := "&#39;"

  function EscapeHtml(value: string): string {
    ReplaceAll(ReplaceAll(ReplaceAll(ReplaceAll(ReplaceAll(value, '&', AMP), '<', LT), '>', GT), '"', QUOT), '\'', APOS)
  }

  // ---------------------------------------------------------------- one pass over the characters

  function Entity(c: char): (e: string)
    ensures e != ""
  {
    if c == '&' then "&amp;"
    else if c == '<' then "&lt;"
    else if c == '>' then "&gt;"
    else if c == '"' then "&quot;"
    else if c == '\'' then "&#39;"
    else [c]
  }

  function EscapeOnce(s: string): string {
    if s == "" then "" else Entity(s[0]) + EscapeOnce(s[1..])
  }

  lemma {:induction false} ReplaceConcat(a: string, b: string, c: char, to: string)
    ensures ReplaceAll(a + b, c, to) == ReplaceAll(a, c, to) + ReplaceAll(b, c, to)
  {
    if a == "" {
      assert a + b == b;
    } else {
      assert (a + b)[1..] == a[1..] + b;
      ReplaceConcat(a[1..], b, c, to);
    }
  }

  lemma {:induction false} ReplaceAbsent(s: string, c: char, to: string)
    requires c !in s
    ensures ReplaceAll(s, c, to) == s
  {
    if s != "" {
      ReplaceAbsent(s[1..], c, to);
    }
  }

  lemma EscapeConcat(a: string, b: string)
    ensures EscapeHtml(a + b) == EscapeHtml(a) + EscapeHtml(b)
  {
    ReplaceConcat(a, b, '&', AMP);
    var a1, b1 := ReplaceAll(a, '&', AMP), ReplaceAll(b, '&', AMP);
    ReplaceConcat(a1, b1, '<', LT);
    var a2, b2 := ReplaceAll(a1, '<', LT), ReplaceAll(b1, '<', LT);
    ReplaceConcat(a2, b2, '>', GT);
    var a3, b3 := ReplaceAll(a2, '>', GT), ReplaceAll(b2, '>', GT);
    ReplaceConcat(a3, b3, '"', QUOT);
    var a4, b4 := ReplaceAll(a3, '"', QUOT), ReplaceAll(b3, '"', QUOT);
    ReplaceConcat(a4, b4, '\'', APOS);
  }

  lemma ReplaceOne(c: char, x: char, to: string)
    ensures ReplaceAll([x], c, to) == if x == c then to else [x]
  {
    assert [x][1..] == "";
    assert to + "" == to && [x] + "" == [x];
  }

  /** No later replacement touches a character of this entity. */
  predicate Untouched(e: string, later: string) {
    forall i :: 0 <= i < |later| ==> later[i] !in e
  }

  lemma EntitiesAreUntouched()
    ensures Untouched(AMP, "<>\"'") && Untouched(LT, ">\"'") && Untouched(GT, "\"'") && Untouched(QUOT, "'")
  {
  }

  lemma ReplaceUntouched(e: string, later: string, k: nat, to: string)
    requires Untouched(e, later) && k < |later|
    ensures ReplaceAll(e, later[k], to) == e
  {
    ReplaceAbsent(e, later[k], to);
  }

  /** Later replacements leave the entities of earlier ones alone: `&` goes first. */
  lemma EscapeOne(x: char)
    ensures EscapeHtml([x]) == Entity(x)
  {
    hide ReplaceAll, Untouched;
    EntitiesAreUntouched();
    ReplaceOne('&', x, AMP);
    ReplaceOne('<', x, LT);
    ReplaceOne('>', x, GT);
    ReplaceOne('"', x, QUOT);
    ReplaceOne('\'', x, APOS);
    if x == '&' {
      ReplaceUntouched(AMP, "<>\"'", 0, LT);
      ReplaceUntouched(AMP, "<>\"'", 1, GT);
      ReplaceUntouched(AMP, "<>\"'", 2, QUOT);
      ReplaceUntouched(AMP, "<>\"'", 3, APOS);
    } else if x == '<' {
      ReplaceUntouched(LT, ">\"'", 0, GT);
      ReplaceUntouched(LT, ">\"'", 1, QUOT);
      ReplaceUntouched(LT, ">\"'", 2, APOS);
    } else if x == '>' {
      ReplaceUntouched(GT, "\"'", 0, QUOT);
      ReplaceUntouched(GT, "\"'", 1, APOS);
    } else if x == '"' {
      ReplaceUntouched(QUOT, "'", 0, APOS);
    }
  }

  /** The five passes are one left-to-right substitution. */
  lemma {:induction false} FivePassesAreOne(s: string)
    ensures EscapeHtml(s) == EscapeOnce(s)
  {
    if s == "" {
    } else {
      assert s == [s[0]] + s[1..];
      EscapeConcat([s[0]], s[1..]);
      EscapeOne(s[0]);
      FivePassesAreOne(s[1..]);
    }
  }

  predicate IsMarkup(c: char) {
    c == '<' || c == '>' || c == '"' || c == '\''
  }

  lemma {:induction false} OnceHasNoMarkup(s: string)
    ensures forall c :: c in EscapeOnce(s) ==> !IsMarkup(c)
  {
    if s != "" {
      OnceHasNoMarkup(s[1..]);
    }
  }

  // ---------------------------------------------------------------- decoding

  predicate StartsWith(s: string, prefix: string) {
    |prefix| <= |s| && s[..|prefix|] == prefix
  }

  /** Reads the five entities back; anything else stands for itself. */
  function Unescape(s: string): string {
    if s == "" then ""
    else if StartsWith(s, AMP) then "&" + Unescape(s[|AMP|..])
    else if StartsWith(s, LT) then "<" + Unescape(s[|LT|..])
    else if StartsWith(s, GT) then ">" + Unescape(s[|GT|..])
    else if StartsWith(s, QUOT) then "\"" + Unescape(s[|QUOT|..])
    else if StartsWith(s, APOS) then "'" + Unescape(s[|APOS|..])
    else [s[0]] + Unescape(s[1..])
  }

  lemma UnescapeEntity(c: char, rest: string)
    ensures Unescape(Entity(c) + rest) == [c] + Unescape(rest)
  {
    var e, s := Entity(c), Entity(c) + rest;
    assert s[..|e|] == e && s[|e|..] == rest;
    assert forall i :: 0 <= i < |e| ==> s[i] == e[i];
    if c == '&' {
      assert StartsWith(s, AMP);
    } else if c == '<' {
      assert AMP[1] != s[1];
      assert !StartsWith(s, AMP) && StartsWith(s, LT);
    } else if c == '>' {
      assert AMP[1] != s[1] && LT[1] != s[1];
      assert !StartsWith(s, AMP) && !StartsWith(s, LT) && StartsWith(s, GT);
    } else if c == '"' {
      assert AMP[1] != s[1] && LT[1] != s[1] && GT[1] != s[1];
      assert !StartsWith(s, AMP) && !StartsWith(s, LT) && !StartsWith(s, GT) && StartsWith(s, QUOT);
    } else if c == '\'' {
      assert AMP[1] != s[1] && LT[1] != s[1] && GT[1] != s[1] && QUOT[1] != s[1];
      assert !StartsWith(s, AMP) && !StartsWith(s, LT) && !StartsWith(s, GT) && !StartsWith(s, QUOT) && StartsWith(s, APOS);
    } else {
      assert AMP[0] == '&' && LT[0] == '&' && GT[0] == '&' && QUOT[0] == '&' && APOS[0] == '&';
      assert s[0] == c;
    }
  }

  lemma {:induction false} UnescapeOnce(s: string)
    ensures Unescape(EscapeOnce(s)) == s
  {
    if s != "" {
      UnescapeEntity(s[0], EscapeOnce(s[1..]));
      UnescapeOnce(s[1..]);
      assert [s[0]] + s[1..] == s;
    }
  }

  /** Escaped text has no raw angle bracket or quote, and reads back as the original. */
  lemma EscapeIsSafeAndReversible(s: string)
    ensures '<' !in EscapeHtml(s) && '>' !in EscapeHtml(s) && '"' !in EscapeHtml(s) && '\'' !in EscapeHtml(s)
    ensures Unescape(EscapeHtml(s)) == s
  {
    FivePassesAreOne(s);
    OnceHasNoMarkup(s);
    UnescapeOnce(s);
  }

  /** Different texts are shown differently. */
  lemma EscapeIsInjective(s: string, t: string)
    requires EscapeHtml(s) == EscapeHtml(t)
    ensures s == t
  {
    EscapeIsSafeAndReversible(s);
    EscapeIsSafeAndReversible(t);
  }
}
