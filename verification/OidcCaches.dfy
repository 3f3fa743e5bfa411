/** The two in-memory caches of the enterprise bridge: tenant configuration by partner slug, and
    discovery documents by URL. A lookup first reads the cache, then awaits a response, then may
    store it; lookups overlap freely. Times are milliseconds. */
module OidcCaches {
  import opened Wrappers

  datatype Cached<V> = Cached(value: V, expiresAt: int)

  type Cache<V> = map<string, Cached<V>>

  function Hit<V>(cache: Cache<V>, key: string, now: int): Option<V> {
    if key in cache && cache[key].expiresAt > now then Some(cache[key].value) else None
  }

  /** Only a complete answer is stored. */
  function Stored<V>(cache: Cache<V>, key: string, found: Option<V>, now: int, ttl: int): Cache<V> {
    if found.None? then cache else cache[key := Cached(found.value, now + ttl)]
  }

  // ---------------------------------------------------------------- what a response is worth

  /** A field of a JSON object: its text, or something that is not a string. */
  datatype JsonValue = Text(text: string) | NotText

  /** `body` is None when the body is not JSON. */
  datatype Response = NoResponse | Response(status: int, body: Option<map<string, JsonValue>>)

  predicate IsOk(status: int) {
    200 <= status <= 299
  }

  function TextField(body: map<string, JsonValue>, name: string): Option<string> {
    if name in body && body[name].Text? then Some(body[name].text) else None
  }

  predicate HasTexts(body: map<string, JsonValue>, names: seq<string>) {
    forall i :: 0 <= i < |names| ==> TextField(body, names[i]).Some?
  }

  datatype OidcPartnerConfig = OidcPartnerConfig(
    partnerId: string, partnerSlug: string, provider: string, issuer: string,
    clientId: string, clientSecret: string, discoveryUrl: string)

  datatype ResolveReason = NotFound | Misconfigured | Unauthorized | Unavailable | RequestFailed

  datatype ResolveResult = Resolved(config: OidcPartnerConfig) | Failed(reason: ResolveReason)

  const CONFIG_FIELDS := ["partner_id", "partner_slug", "issuer", "client_id", "client_secret", "discovery_url"]

  function ConfigIn(r: Response): Option<OidcPartnerConfig> {
    if r.Response? && IsOk(r.status) && r.body.Some? && HasTexts(r.body.value, CONFIG_FIELDS) then
      var f := (name: string) => if TextField(r.body.value, name).Some? then TextField(r.body.value, name).value else "";
      Some(OidcPartnerConfig(f("partner_id"), f("partner_slug"),
                             if TextField(r.body.value, "provider").Some? then f("provider") else "oidc",
                             f("issuer"), f("client_id"), f("client_secret"), f("discovery_url")))
    else None
  }

  /** The field is there and is this text. */
  predicate Says(body: map<string, JsonValue>, name: string, text: string) {
    name in body && body[name] == Text(text)
  }

  /** The response is this configuration, complete: six texts, and a provider that is "oidc" unless
      it is given. */
  predicate CarriesConfig(r: Response, c: OidcPartnerConfig) {
    && r.Response? && 200 <= r.status < 300 && r.body.Some?
    && Says(r.body.value, "partner_id", c.partnerId) && Says(r.body.value, "partner_slug", c.partnerSlug)
    && Says(r.body.value, "issuer", c.issuer) && Says(r.body.value, "client_id", c.clientId)
    && Says(r.body.value, "client_secret", c.clientSecret) && Says(r.body.value, "discovery_url", c.discoveryUrl)
    && (Says(r.body.value, "provider", c.provider)
        || (c.provider == "oidc" && ("provider" in r.body.value ==> r.body.value["provider"].NotText?)))
  }

  lemma ConfigInIs(r: Response)
    ensures forall c :: ConfigIn(r) == Some(c) <==> CarriesConfig(r, c)
  {
    if r.Response? && r.body.Some? {
      var b := r.body.value;
      assert HasTexts(b, CONFIG_FIELDS)
        <==> TextField(b, "partner_id").Some? && TextField(b, "partner_slug").Some? && TextField(b, "issuer").Some?
             && TextField(b, "client_id").Some? && TextField(b, "client_secret").Some? && TextField(b, "discovery_url").Some? by {
        SixFields(b);
      }
      hide HasTexts;
    }
  }

  lemma SixFields(b: map<string, JsonValue>)
    ensures HasTexts(b, CONFIG_FIELDS)
            <==> TextField(b, "partner_id").Some? && TextField(b, "partner_slug").Some? && TextField(b, "issuer").Some?
                 && TextField(b, "client_id").Some? && TextField(b, "client_secret").Some? && TextField(b, "discovery_url").Some?
  {
    hide TextField;
    assert CONFIG_FIELDS[0] == "partner_id" && CONFIG_FIELDS[1] == "partner_slug" && CONFIG_FIELDS[2] == "issuer"
           && CONFIG_FIELDS[3] == "client_id" && CONFIG_FIELDS[4] == "client_secret" && CONFIG_FIELDS[5] == "discovery_url";
  }

  datatype DiscoveryDocument = DiscoveryDocument(authorizationEndpoint: string, tokenEndpoint: string, jwksUri: string, issuer: Option<string>)

  datatype DiscoveryError = DiscoveryRequestFailed | DiscoveryStatus(status: int) | DiscoveryNotJson | DiscoveryIncomplete

  datatype DiscoveryResult = Found(doc: DiscoveryDocument) | DiscoveryFailed(error: DiscoveryError)

  const DOCUMENT_FIELDS := ["authorization_endpoint", "token_endpoint", "jwks_uri"]

  function DocumentIn(r: Response): Option<DiscoveryDocument> {
    if r.Response? && IsOk(r.status) && r.body.Some? && HasTexts(r.body.value, DOCUMENT_FIELDS) then
      var f := (name: string) => if TextField(r.body.value, name).Some? then TextField(r.body.value, name).value else "";
      Some(DiscoveryDocument(f("authorization_endpoint"), f("token_endpoint"), f("jwks_uri"), TextField(r.body.value, "issuer")))
    else None
  }

  /** The response is this document, complete: three endpoints, and an issuer if it is given. */
  predicate CarriesDocument(r: Response, d: DiscoveryDocument) {
    && r.Response? && 200 <= r.status < 300 && r.body.Some?
    && Says(r.body.value, "authorization_endpoint", d.authorizationEndpoint) && Says(r.body.value, "token_endpoint", d.tokenEndpoint)
    && Says(r.body.value, "jwks_uri", d.jwksUri)
    && (if d.issuer.Some? then Says(r.body.value, "issuer", d.issuer.value)
        else "issuer" in r.body.value ==> r.body.value["issuer"].NotText?)
  }

  lemma DocumentInIs(r: Response)
    ensures forall d :: DocumentIn(r) == Some(d) <==> CarriesDocument(r, d)
  {
    if r.Response? && r.body.Some? {
      ThreeFields(r.body.value);
      hide HasTexts;
    }
  }

  lemma ThreeFields(b: map<string, JsonValue>)
    ensures HasTexts(b, DOCUMENT_FIELDS)
            <==> TextField(b, "authorization_endpoint").Some? && TextField(b, "token_endpoint").Some? && TextField(b, "jwks_uri").Some?
  {
    hide TextField;
    assert DOCUMENT_FIELDS[0] == "authorization_endpoint" && DOCUMENT_FIELDS[1] == "token_endpoint" && DOCUMENT_FIELDS[2] == "jwks_uri";
  }

  // ---------------------------------------------------------------- any number of overlapping lookups

  /** The segments of all lookups, in the order they run; `found` is what a response was worth. */
  datatype Event<V> = Looked(key: string, at: int) | Settled(key: string, found: Option<V>, at: int)

  ghost predicate Ordered<V(!new)>(events: seq<Event<V>>) {
    forall i, j :: 0 <= i <= j < |events| ==> events[i].at <= events[j].at
  }

  /** The cache before segment `i`. */
  function CacheAt<V>(events: seq<Event<V>>, i: nat, ttl: int): Cache<V>
    requires i <= |events|
  {
    if i == 0 then map[]
    else if events[i - 1].Looked? then CacheAt(events, i - 1, ttl)
    else Stored(CacheAt(events, i - 1, ttl), events[i - 1].key, events[i - 1].found, events[i - 1].at, ttl)
  }

  /** Segment `j` is the last before `i` that fetched a complete answer for `key`. */
  ghost predicate IsLatest<V(!new)>(events: seq<Event<V>>, i: nat, key: string, j: nat)
    requires i <= |events|
  {
    && j < i && events[j].Settled? && events[j].key == key && events[j].found.Some?
    && forall n :: j < n < i && events[n].Settled? && events[n].key == key ==> events[n].found.None?
  }

  lemma {:induction false} CacheHoldsLatest<V(!new)>(events: seq<Event<V>>, i: nat, ttl: int, key: string)
    requires i <= |events|
    ensures key in CacheAt(events, i, ttl) <==> exists j: nat :: IsLatest(events, i, key, j)
    ensures forall j: nat {:trigger IsLatest(events, i, key, j)} :: IsLatest(events, i, key, j) ==>
              CacheAt(events, i, ttl)[key] == Cached(events[j].found.value, events[j].at + ttl)
  {
    if i > 0 {
      CacheHoldsLatest(events, i - 1, ttl, key);
      var e := events[i - 1];
      if e.Settled? && e.key == key && e.found.Some? {
        assert IsLatest(events, i, key, i - 1);
        forall j: nat | IsLatest(events, i, key, j) ensures j == i - 1 {
        }
      } else {
        var h: nat := i - 1;
        forall j: nat | IsLatest(events, i, key, j) ensures IsLatest(events, h, key, j) {
        }
        if j: nat :| IsLatest(events, h, key, j) {
          assert IsLatest(events, i, key, j);
        }
      }
    }
  }

  /** A lookup is answered from the cache exactly when the last complete answer fetched for its key
      is less than the time to live old, and then with that answer: failures change nothing, a newer
      answer always wins, and nothing older is ever served. */
  lemma {:induction false} BoundedStaleness<V(!new)>(events: seq<Event<V>>, i: nat, ttl: int, key: string, now: int)
    requires i <= |events|
    ensures Hit(CacheAt(events, i, ttl), key, now).Some? <==>
              exists j: nat :: IsLatest(events, i, key, j) && now < events[j].at + ttl
    ensures forall j: nat {:trigger IsLatest(events, i, key, j)} :: IsLatest(events, i, key, j) && now < events[j].at + ttl ==>
              Hit(CacheAt(events, i, ttl), key, now) == events[j].found
  {
    CacheHoldsLatest(events, i, ttl, key);
  }

  /** `cache` is what these segments, in the order of the clock, have left. */
  ghost predicate Left<V(!new)>(cache: Cache<V>, events: seq<Event<V>>, ttl: int) {
    cache == CacheAt(events, |events|, ttl) && Ordered(events)
  }

  /** The clock does not go back. */
  ghost predicate NotBefore<V(!new)>(events: seq<Event<V>>, now: int) {
    forall e :: e in events ==> e.at <= now
  }

  /** `value` was fetched for `key` less than the time to live ago, and nothing newer since. */
  ghost predicate Fresh<V(!new)>(events: seq<Event<V>>, key: string, value: V, now: int, ttl: int) {
    exists j: nat :: IsLatest(events, |events|, key, j) && events[j].found == Some(value) && events[j].at <= now < events[j].at + ttl
  }

  lemma {:induction false} EarlierCache<V(!new)>(events: seq<Event<V>>, e: Event<V>, i: nat, ttl: int)
    requires i <= |events|
    ensures CacheAt(events + [e], i, ttl) == CacheAt(events, i, ttl)
  {
    if i > 0 {
      EarlierCache(events, e, i - 1, ttl);
      assert (events + [e])[i - 1] == events[i - 1];
    }
  }

  lemma Segment<V(!new)>(cache: Cache<V>, events: seq<Event<V>>, e: Event<V>, ttl: int)
    requires Left(cache, events, ttl) && NotBefore(events, e.at)
    ensures Left(if e.Looked? then cache else Stored(cache, e.key, e.found, e.at, ttl), events + [e], ttl)
    ensures NotBefore(events + [e], e.at)
  {
    EarlierCache(events, e, |events|, ttl);
  }

  lemma HitIsFresh<V(!new)>(cache: Cache<V>, events: seq<Event<V>>, ttl: int, key: string, now: int)
    requires Left(cache, events, ttl) && NotBefore(events, now) && Hit(cache, key, now).Some?
    ensures Fresh(events, key, Hit(cache, key, now).value, now, ttl)
  {
    BoundedStaleness(events, |events|, ttl, key, now);
    var j: nat :| IsLatest(events, |events|, key, j) && now < events[j].at + ttl;
    assert events[j] in events;
  }

  // ---------------------------------------------------------------- the services

  const CONFIG_TTL_MS := 60_000

  class OidcProviderResolver {
    const configUrl: Option<string>
    var cache: Cache<OidcPartnerConfig>
    ghost var log: seq<Event<OidcPartnerConfig>>

    ghost predicate Valid()
      reads this
    {
      Left(cache, log, CONFIG_TTL_MS)
    }

    constructor (configUrl: Option<string>)
      ensures Valid() && this.configUrl == configUrl && cache == map[] && log == []
    {
      this.configUrl, cache, log := configUrl, map[], [];
    }

    /** Up to the request: the answer if it is known already. A configuration answered here was fetched
        complete for this slug less than a minute ago, and no newer one since. */
    method Look(partnerSlug: string, now: int) returns (r: Option<ResolveResult>)
      requires Valid() && NotBefore(log, now)
      modifies this`log
      ensures Valid() && NotBefore(log, now) && log == old(log) + [Looked(partnerSlug, now)]
      ensures r.Some? && r.value.Resolved? ==> Fresh(old(log), partnerSlug, r.value.config, now, 60_000)
      ensures r == if partnerSlug in cache && now < cache[partnerSlug].expiresAt then Some(Resolved(cache[partnerSlug].value))
                   else if configUrl.None? || configUrl == Some("") then Some(Failed(Unavailable)) else None
    {
      Segment(cache, log, Looked(partnerSlug, now), CONFIG_TTL_MS);
      log := log + [Looked(partnerSlug, now)];
      if partnerSlug in cache && cache[partnerSlug].expiresAt > now {
        HitIsFresh(cache, old(log), CONFIG_TTL_MS, partnerSlug, now);
        return Some(Resolved(cache[partnerSlug].value));
      }
      if configUrl.None? || configUrl.value == "" {
        return Some(Failed(Unavailable));
      }
      r := None;
    }

    /** From the response on: exactly the complete configurations are answered and stored. */
    method Settle(partnerSlug: string, response: Response, now: int) returns (r: ResolveResult)
      requires Valid() && NotBefore(log, now)
      modifies this`cache, this`log
      ensures Valid() && NotBefore(log, now) && log == old(log) + [Settled(partnerSlug, ConfigIn(response), now)]
      ensures if r.Resolved? then CarriesConfig(response, r.config) && cache == old(cache)[partnerSlug := Cached(r.config, now + 60_000)]
              else (forall c :: !CarriesConfig(response, c)) && cache == old(cache)
      ensures response.NoResponse? ==> r == Failed(RequestFailed)
      ensures response.Response? && !(200 <= response.status < 300) ==>
                r == Failed(if response.status == 404 then NotFound
                            else if response.status == 409 then Misconfigured
                            else if response.status == 401 then Unauthorized
                            else if response.status == 503 then Unavailable
                            else RequestFailed)
      ensures response.Response? && 200 <= response.status < 300 && r.Failed? ==>
                r.reason == if response.body.None? then RequestFailed else Misconfigured
    {
      ConfigInIs(response);
      Segment(cache, log, Settled(partnerSlug, ConfigIn(response), now), CONFIG_TTL_MS);
      log := log + [Settled(partnerSlug, ConfigIn(response), now)];
      match response
      case NoResponse =>
        return Failed(RequestFailed);
      case Response(status, parsed) =>
        if status == 404 { return Failed(NotFound); }
        if status == 409 { return Failed(Misconfigured); }
        if status == 401 { return Failed(Unauthorized); }
        if status == 503 { return Failed(Unavailable); }
        if !IsOk(status) { return Failed(RequestFailed); }
        if parsed.None? { return Failed(RequestFailed); }
        var body := parsed.value;
        var partnerId, slugField := TextField(body, "partner_id"), TextField(body, "partner_slug");
        var issuer, clientId := TextField(body, "issuer"), TextField(body, "client_id");
        var clientSecret, discoveryUrl := TextField(body, "client_secret"), TextField(body, "discovery_url");
        assert CONFIG_FIELDS[0] == "partner_id" && CONFIG_FIELDS[1] == "partner_slug" && CONFIG_FIELDS[2] == "issuer"
               && CONFIG_FIELDS[3] == "client_id" && CONFIG_FIELDS[4] == "client_secret" && CONFIG_FIELDS[5] == "discovery_url";
        if partnerId.None? || slugField.None? || issuer.None? || clientId.None? || clientSecret.None? || discoveryUrl.None? {
          return Failed(Misconfigured);
        }
        var provider := TextField(body, "provider");
        var resolved := OidcPartnerConfig(partnerId.value, slugField.value, if provider.Some? then provider.value else "oidc",
                                          issuer.value, clientId.value, clientSecret.value, discoveryUrl.value);
        cache := cache[partnerSlug := Cached(resolved, now + CONFIG_TTL_MS)];
        r := Resolved(resolved);
    }
  }

  const DISCOVERY_TTL_MS := 5 * 60 * 1000

  class OidcDiscovery {
    var cache: Cache<DiscoveryDocument>
    ghost var log: seq<Event<DiscoveryDocument>>

    ghost predicate Valid()
      reads this
    {
      Left(cache, log, DISCOVERY_TTL_MS)
    }

    constructor ()
      ensures Valid() && cache == map[] && log == []
    {
      cache, log := map[], [];
    }

    /** A document answered here was fetched complete for this URL less than five minutes ago, and no
        newer one since. */
    method Look(discoveryUrl: string, now: int) returns (r: Option<DiscoveryDocument>)
      requires Valid() && NotBefore(log, now)
      modifies this`log
      ensures Valid() && NotBefore(log, now) && log == old(log) + [Looked(discoveryUrl, now)]
      ensures r.Some? ==> Fresh(old(log), discoveryUrl, r.value, now, 300_000)
      ensures r == if discoveryUrl in cache && now < cache[discoveryUrl].expiresAt then Some(cache[discoveryUrl].value) else None
    {
      Segment(cache, log, Looked(discoveryUrl, now), DISCOVERY_TTL_MS);
      log := log + [Looked(discoveryUrl, now)];
      if discoveryUrl in cache && cache[discoveryUrl].expiresAt > now {
        HitIsFresh(cache, old(log), DISCOVERY_TTL_MS, discoveryUrl, now);
        return Some(cache[discoveryUrl].value);
      }
      r := None;
    }

    method Settle(discoveryUrl: string, response: Response, now: int) returns (r: DiscoveryResult)
      requires Valid() && NotBefore(log, now)
      modifies this`cache, this`log
      ensures Valid() && NotBefore(log, now) && log == old(log) + [Settled(discoveryUrl, DocumentIn(response), now)]
      ensures if r.Found? then CarriesDocument(response, r.doc) && cache == old(cache)[discoveryUrl := Cached(r.doc, now + 300_000)]
              else (forall d :: !CarriesDocument(response, d)) && cache == old(cache)
      ensures response.NoResponse? ==> r == DiscoveryFailed(DiscoveryRequestFailed)
      ensures response.Response? && !(200 <= response.status < 300) ==> r == DiscoveryFailed(DiscoveryStatus(response.status))
      ensures response.Response? && 200 <= response.status < 300 && r.DiscoveryFailed? ==>
                r.error == if response.body.None? then DiscoveryNotJson else DiscoveryIncomplete
    {
      DocumentInIs(response);
      Segment(cache, log, Settled(discoveryUrl, DocumentIn(response), now), DISCOVERY_TTL_MS);
      log := log + [Settled(discoveryUrl, DocumentIn(response), now)];
      match response
      case NoResponse =>
        return DiscoveryFailed(DiscoveryRequestFailed);
      case Response(status, parsed) =>
        if !IsOk(status) { return DiscoveryFailed(DiscoveryStatus(status)); }
        if parsed.None? { return DiscoveryFailed(DiscoveryNotJson); }
        var body := parsed.value;
        var authorization, token := TextField(body, "authorization_endpoint"), TextField(body, "token_endpoint");
        var jwks := TextField(body, "jwks_uri");
        assert DOCUMENT_FIELDS[0] == "authorization_endpoint" && DOCUMENT_FIELDS[1] == "token_endpoint" && DOCUMENT_FIELDS[2] == "jwks_uri";
        if authorization.None? || token.None? || jwks.None? {
          return DiscoveryFailed(DiscoveryIncomplete);
        }
        var doc := DiscoveryDocument(authorization.value, token.value, jwks.value, TextField(body, "issuer"));
        cache := cache[discoveryUrl := Cached(doc, now + DISCOVERY_TTL_MS)];
        r := Found(doc);
    }
  }

  /** A complete response that names `named` as its partner. */
  function ResponseFor(named: string): Response {
    Response(200, Some(map["partner_id" := Text(""), "partner_slug" := Text(named), "issuer" := Text(""),
                           "client_id" := Text(""), "client_secret" := Text(""), "discovery_url" := Text("")]))
  }

  /** Nothing compares the slug a configuration carries with the one it was asked for under: whatever
      the two are, a complete response is kept, and answered for the slug asked for. */
  lemma SlugIsNotCompared(asked: string, named: string, now: int)
    ensures var cache := Stored(map[], asked, ConfigIn(ResponseFor(named)), now, CONFIG_TTL_MS);
            Hit(cache, asked, now).Some? && Hit(cache, asked, now).value.partnerSlug == named
  {
    var body := ResponseFor(named).body.value;
    forall i | 0 <= i < |CONFIG_FIELDS| ensures TextField(body, CONFIG_FIELDS[i]).Some? {
      assert CONFIG_FIELDS[i] in ["partner_id", "partner_slug", "issuer", "client_id", "client_secret", "discovery_url"];
    }
  }
}
