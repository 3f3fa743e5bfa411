/** The registered clients, and the two guards `/authorize` puts a request through. */
module Registry {

  datatype RegisteredClient = RegisteredClient(
    active: bool,
    allowedRedirectUris: seq<string>,
    allowedPurposes: seq<string>)

  type Clients = map<string, RegisteredClient>

  predicate IsRedirectUriAllowed(c: RegisteredClient, redirectUri: string) {
    c.active && redirectUri in c.allowedRedirectUris
  }

  predicate IsPurposeAllowed(c: RegisteredClient, purpose: string) {
    c.active && purpose in c.allowedPurposes
  }

  /** The registry lets this client start this purpose with this redirect target. */
  predicate Permits(cs: Clients, clientId: string, redirectUri: string, purpose: string) {
    clientId in cs && IsRedirectUriAllowed(cs[clientId], redirectUri) && IsPurposeAllowed(cs[clientId], purpose)
  }
}
