/** The provider subject of an enterprise identity: "slug:sub". */
module TenantKey {
  import opened Wrappers

  const OIDC_PROVIDER := "oidc"
  const GOOGLE_PROVIDER := "google"

  /** The partner slug pattern of `/authorize`: 1 to 64 of a-z, 0-9 and hyphen. */
  predicate IsSlug(s: string) {
    1 <= |s| <= 64 && forall i :: 0 <= i < |s| ==> ('a' <= s[i] <= 'z' || '0' <= s[i] <= '9' || s[i] == '-')
  }

  function CompositeSubject(slug: string, sub: string): string {
    slug + ":" + sub
  }

  /** Split at the first colon. */
  function Split(subject: string): Option<(string, string)> {
    if subject == "" then None
    else if subject[0] == ':' then Some(("", subject[1..]))
    else
      match Split(subject[1..])
      case None => None
      case Some((slug, sub)) => Some(([subject[0]] + slug, sub))
  }

  /** For a colon-free prefix, splitting recovers both parts. */
  lemma {:induction false} SplitOfComposite(slug: string, sub: string)
    requires ':' !in slug
    ensures Split(CompositeSubject(slug, sub)) == Some((slug, sub))
  {
    var whole := CompositeSubject(slug, sub);
    if slug == "" {
      assert whole[1..] == sub;
    } else {
      assert whole[1..] == CompositeSubject(slug[1..], sub);
      SplitOfComposite(slug[1..], sub);
      assert [slug[0]] + slug[1..] == slug;
    }
  }

  /** Two tenants never share a composite subject, whatever raw subjects their IdPs issue. */
  lemma CompositeIsInjective(slug1: string, sub1: string, slug2: string, sub2: string)
    requires IsSlug(slug1) && IsSlug(slug2)
    requires CompositeSubject(slug1, sub1) == CompositeSubject(slug2, sub2)
    ensures slug1 == slug2 && sub1 == sub2
  {
    SplitOfComposite(slug1, sub1);
    SplitOfComposite(slug2, sub2);
  }
}
