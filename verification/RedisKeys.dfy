/** The text of the Redis keys. Every family has its own prefix under "kisauth:". */
module RedisKeys {
  import opened Records
  import TenantKey

  /** `idText` prints a random identifier. */
  function KeyText(idText: Id -> string, k: Key): string {
    match k
    case SessionKey(id) => "kisauth:oauthsession:" + idText(id)
    case ChallengeKey(id) => "kisauth:challenge:" + idText(id)
    case CodeKey(id) => "kisauth:code:" + idText(id)
    case TicketKey(id) => "kisauth:regticket:" + idText(id)
    case LinkNonceKey(nonce) => "kisauth:linkticketnonce:" + nonce
    case RateKey(scope, identifier) => "kisauth:ratelimit:" + TenantKey.CompositeSubject(scope, identifier)
  }

  ghost predicate Injective(idText: Id -> string) {
    forall a, b :: idText(a) == idText(b) ==> a == b
  }

  predicate ScopeHasNoColon(k: Key) {
    k.RateKey? ==> ':' !in k.scope
  }

  /** The two characters after "kisauth:" tell the families apart. */
  lemma FamilyMark(idText: Id -> string, k: Key)
    ensures |KeyText(idText, k)| >= 10
    ensures KeyText(idText, k)[8..10] == match k
                                          case SessionKey(_) => "oa"
                                          case ChallengeKey(_) => "ch"
                                          case CodeKey(_) => "co"
                                          case TicketKey(_) => "re"
                                          case LinkNonceKey(_) => "li"
                                          case RateKey(_, _) => "ra"
  {
  }

  lemma SuffixIs(prefix: string, a: string, b: string)
    requires prefix + a == prefix + b
    ensures a == b
  {
    assert (prefix + a)[|prefix|..] == a;
    assert (prefix + b)[|prefix|..] == b;
  }

  /** Two different keys never share a text: no code is another code, a registration ticket, a
      session, a challenge, a link nonce or a rate counter, whatever text a caller supplies. */
  lemma KeyTextIsInjective(idText: Id -> string, k1: Key, k2: Key)
    requires Injective(idText) && ScopeHasNoColon(k1) && ScopeHasNoColon(k2)
    requires KeyText(idText, k1) == KeyText(idText, k2)
    ensures k1 == k2
  {
    FamilyMark(idText, k1);
    FamilyMark(idText, k2);
    assert "oa"[0] == 'o' && "ch"[1] == 'h' && "co"[1] == 'o' && "re"[1] == 'e' && "li"[0] == 'l' && "ra"[1] == 'a';
    match (k1, k2)
    case (SessionKey(a), SessionKey(b)) => SuffixIs("kisauth:oauthsession:", idText(a), idText(b));
    case (ChallengeKey(a), ChallengeKey(b)) => SuffixIs("kisauth:challenge:", idText(a), idText(b));
    case (CodeKey(a), CodeKey(b)) => SuffixIs("kisauth:code:", idText(a), idText(b));
    case (TicketKey(a), TicketKey(b)) => SuffixIs("kisauth:regticket:", idText(a), idText(b));
    case (LinkNonceKey(a), LinkNonceKey(b)) => SuffixIs("kisauth:linkticketnonce:", a, b);
    case (RateKey(s1, i1), RateKey(s2, i2)) =>
      SuffixIs("kisauth:ratelimit:", TenantKey.CompositeSubject(s1, i1), TenantKey.CompositeSubject(s2, i2));
      TenantKey.SplitOfComposite(s1, i1);
      TenantKey.SplitOfComposite(s2, i2);
    case _ =>
  }
}
