/**
  The secrets-engine backend (plugin/backend.go): the lazily built, install-once
  cache of the Graph client. Building the credential and the client are calls into
  foreign libraries; whether each fails is an oracle over its arguments.
*/
module Engine {
  import opened Wrappers
  import opened Errors
  import opened Storage
  import opened Config

  /** The single scope the Graph client is built with. */
  const GraphScope := "https://graph.microsoft.com/.default"

  /** A client-secret credential, built from exactly these three values. */
  datatype Credential = ClientSecretCredential(tenantId: string, clientId: string, clientSecret: string)

  /** A Graph service client, determined by its credential and scopes. */
  datatype Client = GraphServiceClient(credential: Credential, scopes: seq<string>)

  /**
    What the client factory's collaborators do on one request: whether the storage
    read fails, and which credential or client constructions fail.
  */
  datatype Env = Env(
    storageFault: Option<Error>,
    credentialFault: (string, string, string) -> Option<Error>,
    clientFault: (Credential, seq<string>) -> Option<Error>)

  /**
    The cold path dereferences the config `getConfig` returns, so it needs a stored
    entry unless the storage read fails first. A cached client needs nothing.
  */
  predicate ClientReachable(cached: Option<Client>, entries: map<string, Entry<AzureConfig>>, env: Env) {
    cached.Some? || env.storageFault.Some? || ConfigKey in entries
  }

  /** What `GetClient` returns, given the cache and the storage it starts from. */
  function ClientFor(cached: Option<Client>, entries: map<string, Entry<AzureConfig>>, env: Env): (r: Result<Client, Error>)
    requires ClientReachable(cached, entries, env)
    ensures cached.Some? ==> r == Success(cached.value)
    ensures cached.None? && env.storageFault.Some? ==> r == Failure(env.storageFault.value)
    ensures cached.None? && env.storageFault.None? && entries[ConfigKey].Malformed? ==> r == Failure(DecodeError)
    ensures cached.None? && env.storageFault.None? && entries[ConfigKey].Json? ==>
      var c := entries[ConfigKey].value;
      var cred := ClientSecretCredential(c.tenantId, c.clientId, c.clientSecret);
      && (env.credentialFault(c.tenantId, c.clientId, c.clientSecret).Some? ==>
            r == Failure(env.credentialFault(c.tenantId, c.clientId, c.clientSecret).value))
      && (env.credentialFault(c.tenantId, c.clientId, c.clientSecret).None? && env.clientFault(cred, [GraphScope]).Some? ==>
            r == Failure(env.clientFault(cred, [GraphScope]).value))
      && (r.Success? <==>
            env.credentialFault(c.tenantId, c.clientId, c.clientSecret).None? && env.clientFault(cred, [GraphScope]).None?)
      && (r.Success? ==> r.value == GraphServiceClient(cred, [GraphScope]))
  {
    if cached.Some? then Success(cached.value)
    else match ConfigLookup(entries, env.storageFault)
      case Failure(e) => Failure(e)
      case Success(stored) =>
        var c := stored.value;
        match env.credentialFault(c.tenantId, c.clientId, c.clientSecret)
        case Some(e) => Failure(e)
        case None =>
          var cred := ClientSecretCredential(c.tenantId, c.clientId, c.clientSecret);
          match env.clientFault(cred, [GraphScope])
          case Some(e) => Failure(e)
          case None => Success(GraphServiceClient(cred, [GraphScope]))
  }

  class Backend {
    /** `b.client`: nil until the first fully successful `GetClient`. */
    var client: Option<Client>
    /** How many times `GetClient` has been asked for a client. */
    ghost var clientRequests: nat

    constructor ()
      ensures client == None && clientRequests == 0
    {
      client := None;
      clientRequests := 0;
    }

    /**
      `GetClient`: a cached client is returned without touching storage; otherwise the
      config is read, the credential and client are built, and the client is cached
      only when all three steps succeed. Any error is returned unchanged.
    */
    method GetClient(s: Storage<AzureConfig>, env: Env) returns (r: Result<Client, Error>)
      requires ClientReachable(client, s.entries, env)
      modifies this, s`trace
      ensures r == ClientFor(old(client), s.entries, env)
      ensures client == r.ToOption()
      ensures old(client).Some? ==> client == old(client)
      ensures s.trace == if old(client).Some? then old(s.trace) else old(s.trace) + [Load(ConfigKey)]
      ensures clientRequests == old(clientRequests) + 1
    {
      clientRequests := clientRequests + 1;
      if client.Some? {
        return Success(client.value);
      }
      var config := GetConfig(s, env.storageFault);
      if config.Failure? {
        return Failure(config.error);
      }
      var c := config.value.value;
      var credErr := env.credentialFault(c.tenantId, c.clientId, c.clientSecret);
      if credErr.Some? {
        return Failure(credErr.value);
      }
      var cred := ClientSecretCredential(c.tenantId, c.clientId, c.clientSecret);
      var clientErr := env.clientFault(cred, [GraphScope]);
      if clientErr.Some? {
        return Failure(clientErr.value);
      }
      var built := GraphServiceClient(cred, [GraphScope]);
      client := Some(built);
      r := Success(built);
    }
  }

  /** The subscription id plays no part in building the client. */
  lemma ClientIgnoresSubscription(entries: map<string, Entry<AzureConfig>>, env: Env, subscriptionId: string)
    requires ConfigKey in entries && entries[ConfigKey].Json?
    ensures var c := entries[ConfigKey].value;
      ClientFor(None, entries, env) == ClientFor(None, entries[ConfigKey := Json(c.(subscriptionId := subscriptionId))], env)
  {
  }

  /** Once cached, the client is what every later call returns, whatever the storage now holds. */
  lemma CachedClientIsKept(c: Client, entries: map<string, Entry<AzureConfig>>, env: Env)
    ensures ClientFor(Some(c), entries, env) == Success(c)
  {
  }

  /** A client built once keeps being returned after the stored config changes. */
  method NeverRefreshed(b: Backend, s: Storage<AzureConfig>, env: Env, newer: AzureConfig)
    returns (first: Result<Client, Error>, second: Result<Client, Error>)
    requires b.client.None? && env.storageFault.None?
    requires ConfigKey in s.entries
    modifies b, s
    ensures first.Success? ==> second == first
    ensures first.Failure? ==> b.client.None?
  {
    first := b.GetClient(s, env);
    second := first;
    if first.Success? {
      var _ := s.Put(ConfigKey, Json(newer), None);
      second := b.GetClient(s, env);
    }
  }
}
