/**
  The credential store (plugin/path_config.go): one four-string record kept under
  the fixed storage key "config", read back as empty strings when absent, and
  updated by a field-by-field partial merge.
*/
module Config {
  import opened Wrappers
  import opened Errors
  import opened Storage

  const ConfigKey := "config"

  datatype AzureConfig = AzureConfig(subscriptionId: string, tenantId: string, clientId: string, clientSecret: string)

  /** What `new(AzureConfig)` yields. */
  const EmptyConfig := AzureConfig("", "", "", "")

  /** A configuration write: each field is either supplied (`GetOk` succeeds) or absent. */
  datatype ConfigRequest = ConfigRequest(
    subscriptionId: Option<string>, tenantId: Option<string>, clientId: Option<string>, clientSecret: Option<string>)

  /** Names the four fields, so that properties can be stated once for all of them. */
  datatype Field = SubscriptionId | TenantId | ClientId | ClientSecret

  function Value(c: AzureConfig, f: Field): string {
    match f
    case SubscriptionId => c.subscriptionId
    case TenantId => c.tenantId
    case ClientId => c.clientId
    case ClientSecret => c.clientSecret
  }

  function Requested(req: ConfigRequest, f: Field): Option<string> {
    match f
    case SubscriptionId => req.subscriptionId
    case TenantId => req.tenantId
    case ClientId => req.clientId
    case ClientSecret => req.clientSecret
  }

  /** The partial merge of a write onto the record it starts from. */
  function Merge(c: AzureConfig, req: ConfigRequest): (r: AzureConfig)
    ensures forall f :: Requested(req, f).Some? ==> Value(r, f) == Requested(req, f).value
    ensures forall f :: Requested(req, f).None? ==> Value(r, f) == Value(c, f)
  {
    AzureConfig(
      req.subscriptionId.GetOr(c.subscriptionId),
      req.tenantId.GetOr(c.tenantId),
      req.clientId.GetOr(c.clientId),
      req.clientSecret.GetOr(c.clientSecret))
  }

  /** What `getConfig` yields for a storage read that did not itself fail. */
  function StoredConfig(entries: map<string, Entry<AzureConfig>>): Result<Option<AzureConfig>, Error> {
    if ConfigKey !in entries then Success(None)
    else match entries[ConfigKey]
      case Json(c) => Success(Some(c))
      case Malformed => Failure(DecodeError)
  }

  /** What `getConfig` yields, given whether the storage read fails. */
  function ConfigLookup(entries: map<string, Entry<AzureConfig>>, fault: Option<Error>): Result<Option<AzureConfig>, Error> {
    if fault.Some? then Failure(fault.value) else StoredConfig(entries)
  }

  /** The storage after a write whose storage accesses do not fail. */
  function AfterWrite(entries: map<string, Entry<AzureConfig>>, req: ConfigRequest): Result<map<string, Entry<AzureConfig>>, Error> {
    match StoredConfig(entries)
    case Failure(e) => Failure(e)
    case Success(stored) => Success(entries[ConfigKey := Json(Merge(stored.GetOr(EmptyConfig), req))])
  }

  /** `getConfig`: absent is (nil, nil); a storage or decode error is returned. */
  method GetConfig(s: Storage<AzureConfig>, fault: Option<Error>) returns (r: Result<Option<AzureConfig>, Error>)
    modifies s`trace
    ensures s.trace == old(s.trace) + [Load(ConfigKey)]
    ensures r == ConfigLookup(s.entries, fault)
  {
    var entry := s.Get(ConfigKey, fault);
    if entry.Failure? {
      return Failure(entry.error);
    }
    if entry.value.None? {
      return Success(None);
    }
    match entry.value.value
    case Malformed => r := Failure(DecodeError);
    case Json(c) => r := Success(Some(c));
  }

  /** `pathConfigRead`: the four stored values, or four empty strings when nothing is stored. */
  method ConfigRead(s: Storage<AzureConfig>, fault: Option<Error>) returns (r: Result<AzureConfig, Error>)
    modifies s`trace
    ensures s.trace == old(s.trace) + [Load(ConfigKey)]
    ensures match ConfigLookup(s.entries, fault)
      case Failure(e) => r == Failure(e)
      case Success(None) => r == Success(EmptyConfig)
      case Success(Some(c)) => r == Success(c)
  {
    var config := GetConfig(s, fault);
    if config.Failure? {
      return Failure(config.error);
    }
    r := Success(config.value.GetOr(EmptyConfig));
  }

  /**
    `pathConfigWrite`: read the stored record (or start from the empty one), overwrite
    the fields the request supplies, and put the result under "config".
  */
  method ConfigWrite(s: Storage<AzureConfig>, req: ConfigRequest, getFault: Option<Error>, putFault: Option<Error>)
    returns (err: Option<Error>)
    modifies s
    ensures getFault.Some? ==>
      err == getFault && s.entries == old(s.entries) && s.trace == old(s.trace) + [Load(ConfigKey)]
    ensures getFault.None? ==> match AfterWrite(old(s.entries), req)
      case Failure(e) =>
        err == Some(e) && s.entries == old(s.entries) && s.trace == old(s.trace) + [Load(ConfigKey)]
      case Success(written) =>
        err == putFault && s.entries == (if putFault.None? then written else old(s.entries))
        && s.trace == old(s.trace) + [Load(ConfigKey), Store(ConfigKey)]
  {
    var stored := GetConfig(s, getFault);
    if stored.Failure? {
      return Some(stored.error);
    }
    var config := if stored.value.Some? then stored.value.value else EmptyConfig;
    if req.subscriptionId.Some? {
      config := config.(subscriptionId := req.subscriptionId.value);
    }
    if req.tenantId.Some? {
      config := config.(tenantId := req.tenantId.value);
    }
    if req.clientId.Some? {
      config := config.(clientId := req.clientId.value);
    }
    if req.clientSecret.Some? {
      config := config.(clientSecret := req.clientSecret.value);
    }
    err := s.Put(ConfigKey, Json(config), putFault);
  }

  /** A successful write stores exactly the merged record; the other entries are untouched. */
  lemma WriteStoresMerge(entries: map<string, Entry<AzureConfig>>, req: ConfigRequest)
    requires AfterWrite(entries, req).Success?
    ensures var written := AfterWrite(entries, req).value;
      && StoredConfig(written) == Success(Some(Merge(StoredConfig(entries).value.GetOr(EmptyConfig), req)))
      && (forall k :: k in entries && k != ConfigKey ==> k in written && written[k] == entries[k])
      && written.Keys == entries.Keys + {ConfigKey}
  {
  }

  /** With nothing stored, a write merges onto the all-empty record. */
  lemma WriteOntoNothing(entries: map<string, Entry<AzureConfig>>, req: ConfigRequest)
    requires ConfigKey !in entries
    ensures AfterWrite(entries, req) == Success(entries[ConfigKey := Json(Merge(EmptyConfig, req))])
  {
  }

  /** A stored entry that does not decode makes the write fail and persist nothing. */
  lemma WriteOntoMalformed(entries: map<string, Entry<AzureConfig>>, req: ConfigRequest)
    requires ConfigKey in entries && entries[ConfigKey] == Malformed
    ensures AfterWrite(entries, req) == Failure(DecodeError)
  {
  }

  /** A read that follows a successful write returns the merged values. */
  lemma ReadAfterWrite(entries: map<string, Entry<AzureConfig>>, req: ConfigRequest)
    requires AfterWrite(entries, req).Success?
    ensures forall f :: Requested(req, f).Some? ==>
      Value(StoredConfig(AfterWrite(entries, req).value).value.value, f) == Requested(req, f).value
    ensures forall f :: Requested(req, f).None? ==>
      Value(StoredConfig(AfterWrite(entries, req).value).value.value, f)
        == Value(StoredConfig(entries).value.GetOr(EmptyConfig), f)
  {
    WriteStoresMerge(entries, req);
  }

  /** Merging the same request twice is merging it once. */
  lemma MergeIdempotent(c: AzureConfig, req: ConfigRequest)
    ensures Merge(Merge(c, req), req) == Merge(c, req)
  {
  }

  /** Applying the same write twice leaves the same storage as applying it once. */
  lemma WriteIdempotent(entries: map<string, Entry<AzureConfig>>, req: ConfigRequest)
    requires AfterWrite(entries, req).Success?
    ensures AfterWrite(AfterWrite(entries, req).value, req) == AfterWrite(entries, req)
  {
    var merged := Merge(StoredConfig(entries).value.GetOr(EmptyConfig), req);
    var written := entries[ConfigKey := Json(merged)];
    assert StoredConfig(written) == Success(Some(merged));
    MergeIdempotent(StoredConfig(entries).value.GetOr(EmptyConfig), req);
    assert written[ConfigKey := Json(merged)] == written;
  }

  /** The request that supplies a field when the second request does, and otherwise when the first does. */
  function Overlay(first: ConfigRequest, second: ConfigRequest): (r: ConfigRequest)
    ensures forall f :: Requested(r, f) == if Requested(second, f).Some? then Requested(second, f) else Requested(first, f)
  {
    ConfigRequest(
      if second.subscriptionId.Some? then second.subscriptionId else first.subscriptionId,
      if second.tenantId.Some? then second.tenantId else first.tenantId,
      if second.clientId.Some? then second.clientId else first.clientId,
      if second.clientSecret.Some? then second.clientSecret else first.clientSecret)
  }

  /** Two successive writes amount to one write of the overlaid request: later values win, untouched fields survive. */
  lemma MergeTwice(c: AzureConfig, first: ConfigRequest, second: ConfigRequest)
    ensures Merge(Merge(c, first), second) == Merge(c, Overlay(first, second))
  {
  }

  /** Writing `{client_id: "X"}` after `{tenant_id: "T", client_id: "Y"}` onto nothing keeps tenant "T". */
  method MergeScenario(s: Storage<AzureConfig>) returns (r: Result<AzureConfig, Error>)
    requires s.entries == map[]
    modifies s
    ensures r == Success(AzureConfig("", "T", "X", ""))
  {
    var first := ConfigRequest(None, Some("T"), Some("Y"), None);
    var second := ConfigRequest(None, None, Some("X"), None);
    var err := ConfigWrite(s, first, None, None);
    assert err.None?;
    err := ConfigWrite(s, second, None, None);
    assert err.None?;
    r := ConfigRead(s, None);
  }
}
