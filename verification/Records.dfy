/** The values KIS Auth stores in Redis, and the keys it stores them under.
    Random identifiers (session ids, codes, tickets, challenge ids, PKCE verifiers, row uuids) are
    numbers: nothing in the source looks inside them. */
module Records {
  import opened Wrappers

  type Id = nat

  const SESSION_TTL_SECONDS := 600

  /** `OAuthSession`: one in-flight browser authorization request. */
  datatype OAuthSession = OAuthSession(
    clientId: string,
    redirectUri: string,
    purpose: string,
    state: nat,
    nonce: nat,
    clientState: string,
    codeVerifier: Option<Id>,
    linkKisUserId: Option<string>,
    partnerSlug: Option<string>)

  datatype ChallengeRecord = ChallengeRecord(
    purpose: string,
    clientId: string,
    kisUserId: Option<string>,
    authIdentityId: Option<Id>,
    attemptCount: int,
    maxAttempts: int,
    used: bool)

  datatype AuthorizationCodePayload = AuthorizationCodePayload(
    purpose: string,
    clientId: string,
    kisUserId: string,
    authIdentityId: Id,
    redirectUri: string)

  datatype RegistrationTicketPayload = RegistrationTicketPayload(
    clientId: string,
    purpose: string,
    provider: string,
    providerSubject: string,
    providerEmail: Option<string>,
    providerEmailVerified: bool,
    partnerSlug: Option<string>,
    redirectUri: string)

  /** What a Redis key can hold. */
  datatype Value =
    | SessionValue(session: OAuthSession)
    | ChallengeValue(challenge: ChallengeRecord)
    | CodeValue(code: AuthorizationCodePayload)
    | TicketValue(ticket: RegistrationTicketPayload)
    | Claimed
    | Counter(count: int)

  /** The six key families; `KeyText` in module RedisKeys gives the text of each. */
  datatype Key =
    | SessionKey(sessionId: Id)
    | ChallengeKey(challengeId: Id)
    | CodeKey(codeId: Id)
    | TicketKey(ticketId: Id)
    | LinkNonceKey(nonce: string)
    | RateKey(scope: string, identifier: string)
}
