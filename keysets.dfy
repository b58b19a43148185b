/**
  The keyset handlers (plugin/path_keysets.go): local id validation before anything
  else, then the cached client, then exactly one remote call; plus the mapping of a
  remote key into the read model and the projection of the keyset listing.
*/
module KeySets {
  import opened Wrappers
  import opened Errors
  import opened Storage
  import opened Graph
  import opened Config
  import opened Engine

  /** The namespace every mutated keyset id must start with. */
  const Prefix := "B2C_1A_"
  const IdRequired := "ID is required"
  const IdPrefixRequired := "ID must start with B2C_1A_"
  /** Stands in the read model for a timestamp that is absent or not positive. */
  const NotApplicable := "n/a"
  /** `time.Hour * 24 * 365`, in seconds. */
  const OneYear := 365 * 24 * 3600

  /** A key as the plugin keeps it; an absent `exp` or `nbf` is 0. */
  datatype AzureKey = AzureKey(kid: string, kty: string, use: string, exp: int, nbf: int)

  /** The zero `AzureKey`, which `getKey` returns alongside an error. */
  const ZeroKey := AzureKey("", "", "", 0, 0)

  datatype AzureKeySet = AzureKeySet(id: string, keys: seq<AzureKey>)

  /** The data of a read response. */
  datatype DisplayKey = DisplayKey(kid: string, kty: string, use: string, exp: string, nbf: string)

  /** A user-facing validation failure: a response, not an error. */
  datatype Response = ErrorResponse(message: string)

  /** The validity window the upload and generate requests carry. */
  datatype Window = Window(nbf: int, exp: int)

  /** `strings.HasPrefix` */
  predicate HasPrefix(s: string, p: string) {
    |p| <= |s| && s[..|p|] == p
  }

  /** The checks at the top of `pathKeySetsCreate`: the empty id first, then the prefix. */
  function ValidateCreateId(id: string): (r: Option<string>)
    ensures r.None? <==> id != "" && HasPrefix(id, Prefix)
    ensures id == "" ==> r == Some(IdRequired)
    ensures id != "" && !HasPrefix(id, Prefix) ==> r == Some(IdPrefixRequired)
  {
    if id == "" then Some(IdRequired)
    else if !HasPrefix(id, Prefix) then Some(IdPrefixRequired)
    else None
  }

  /** The single check at the top of the upload, generate and delete handlers. */
  function ValidateId(id: string): (r: Option<string>)
    ensures r.None? <==> HasPrefix(id, Prefix)
    ensures r.Some? ==> r == Some(IdPrefixRequired)
  {
    if HasPrefix(id, Prefix) then None else Some(IdPrefixRequired)
  }

  /**
    The window built from two clock readings (`time.Now()` is called once for `nbf`
    and once more for `exp`): `nbf` is the first reading, `exp` a year after the second.
  */
  function ValidityWindow(nbfNow: int, expNow: int): (w: Window)
    ensures w.nbf == nbfNow
    ensures w.exp - w.nbf == 31536000 + (expNow - nbfNow)
  {
    Window(nbfNow, expNow + OneYear)
  }

  /** How `getKey` turns the SDK's key into an `AzureKey`. */
  function FromGraph(k: GraphKey): AzureKey {
    AzureKey(k.kid, k.kty, k.use, k.exp.GetOr(0), k.nbf.GetOr(0))
  }

  /** `exp` or `nbf` as the read response shows it; `format` is the local-time formatter. */
  function Timestamp(t: int, format: int -> string): string {
    if t > 0 then format(t) else NotApplicable
  }

  /** The read model built in `pathKeySetsRead`. */
  function Display(key: AzureKey, format: int -> string): (d: DisplayKey)
    ensures d.kid == key.kid && d.kty == key.kty && d.use == key.use
    ensures key.exp <= 0 ==> d.exp == NotApplicable
    ensures key.exp > 0 ==> d.exp == format(key.exp)
    ensures key.nbf <= 0 ==> d.nbf == NotApplicable
    ensures key.nbf > 0 ==> d.nbf == format(key.nbf)
  {
    DisplayKey(key.kid, key.kty, key.use, Timestamp(key.exp, format), Timestamp(key.nbf, format))
  }

  /** `getKey`: one remote call; on failure the zero key and the error. */
  method GetKey(client: Client, g: Platform, keyName: string) returns (key: AzureKey, err: Option<Error>)
    modifies g
    ensures g.log == old(g.log) + [GetActiveKey(keyName)]
    ensures g.ActiveKey(keyName).Failure? ==> key == ZeroKey && err == Some(g.ActiveKey(keyName).error)
    ensures g.ActiveKey(keyName).Success? ==> key == FromGraph(g.ActiveKey(keyName).value) && err.None?
  {
    var r := g.GetActive(keyName);
    if r.Failure? {
      return ZeroKey, Some(r.error);
    }
    var k := r.value;
    key := AzureKey(k.kid, k.kty, k.use, 0, 0);
    if k.nbf.Some? {
      key := key.(nbf := k.nbf.value);
    }
    if k.exp.Some? {
      key := key.(exp := k.exp.value);
    }
    err := None;
  }

  /** The loop of `listKeys`: one `AzureKeySet` per listed keyset, in the platform's order. */
  method ProjectKeySets(values: seq<GraphKeySet>) returns (sets: seq<AzureKeySet>)
    ensures |sets| == |values|
    ensures forall i :: 0 <= i < |values| ==> sets[i] == AzureKeySet(values[i].id, [])
  {
    sets := [];
    var i := 0;
    while i < |values|
      invariant 0 <= i <= |values|
      invariant |sets| == i
      invariant forall j :: 0 <= j < i ==> sets[j] == AzureKeySet(values[j].id, [])
    {
      sets := sets + [AzureKeySet(values[i].id, [])];
      i := i + 1;
    }
  }

  /** The loop of `pathKeySetsList`: the id of each keyset, in order. */
  method KeySetIds(sets: seq<AzureKeySet>) returns (ids: seq<string>)
    ensures |ids| == |sets|
    ensures forall i :: 0 <= i < |sets| ==> ids[i] == sets[i].id
  {
    ids := [];
    var i := 0;
    while i < |sets|
      invariant 0 <= i <= |sets|
      invariant |ids| == i
      invariant forall j :: 0 <= j < i ==> ids[j] == sets[j].id
    {
      ids := ids + [sets[i].id];
      i := i + 1;
    }
  }

  /** `listKeys`: one remote call, then the projection. */
  method ListKeys(client: Client, g: Platform) returns (r: Result<seq<AzureKeySet>, Error>)
    modifies g
    ensures g.log == old(g.log) + [ListKeySets]
    ensures g.fault(ListKeySets).Some? ==> r == Failure(g.fault(ListKeySets).value)
    ensures g.fault(ListKeySets).None? ==>
      r.Success? && |r.value| == |g.keySets|
      && forall i :: 0 <= i < |g.keySets| ==> r.value[i] == AzureKeySet(g.keySets[i].id, [])
  {
    var keys := g.List();
    if keys.Failure? {
      return Failure(keys.error);
    }
    var sets := ProjectKeySets(keys.value);
    r := Success(sets);
  }

  /** `pathKeySetsList`: the listed ids in the platform's order, or the error. */
  method List(b: Backend, s: Storage<AzureConfig>, g: Platform, env: Env) returns (r: Result<seq<string>, Error>)
    requires ClientReachable(b.client, s.entries, env)
    modifies b, s`trace, g
    ensures b.client == ClientFor(old(b.client), s.entries, env).ToOption()
    ensures ClientFor(old(b.client), s.entries, env).Failure? ==>
      r == Failure(ClientFor(old(b.client), s.entries, env).error) && g.log == old(g.log)
    ensures ClientFor(old(b.client), s.entries, env).Success? ==>
      && g.log == old(g.log) + [ListKeySets]
      && (g.fault(ListKeySets).Some? ==> r == Failure(g.fault(ListKeySets).value))
      && (g.fault(ListKeySets).None? ==>
            r.Success? && |r.value| == |g.keySets|
            && forall i :: 0 <= i < |g.keySets| ==> r.value[i] == g.keySets[i].id)
  {
    var client := b.GetClient(s, env);
    if client.Failure? {
      return Failure(client.error);
    }
    var keys := ListKeys(client.value, g);
    if keys.Failure? {
      return Failure(keys.error);
    }
    var ids := KeySetIds(keys.value);
    r := Success(ids);
  }

  /** `pathKeySetsRead`: no id validation; the active key through the read model, or the error. */
  method Read(b: Backend, s: Storage<AzureConfig>, g: Platform, env: Env, id: string, format: int -> string)
    returns (r: Result<DisplayKey, Error>)
    requires ClientReachable(b.client, s.entries, env)
    modifies b, s`trace, g
    ensures b.client == ClientFor(old(b.client), s.entries, env).ToOption()
    ensures ClientFor(old(b.client), s.entries, env).Failure? ==>
      r == Failure(ClientFor(old(b.client), s.entries, env).error) && g.log == old(g.log)
    ensures ClientFor(old(b.client), s.entries, env).Success? ==>
      && g.log == old(g.log) + [GetActiveKey(id)]
      && (g.ActiveKey(id).Failure? ==> r == Failure(g.ActiveKey(id).error))
      && (g.ActiveKey(id).Success? ==> r == Success(Display(FromGraph(g.ActiveKey(id).value), format)))
  {
    var client := b.GetClient(s, env);
    if client.Failure? {
      return Failure(client.error);
    }
    var key, err := GetKey(client.value, g, id);
    if err.Some? {
      return Failure(err.value);
    }
    r := Success(Display(key, format));
  }

  /**
    `pathKeySetsExistenceCheck`: a client error is returned; a failed key read is
    swallowed and reads as "does not exist".
  */
  method ExistenceCheck(b: Backend, s: Storage<AzureConfig>, g: Platform, env: Env, id: string)
    returns (r: Result<bool, Error>)
    requires ClientReachable(b.client, s.entries, env)
    modifies b, s`trace, g
    ensures b.client == ClientFor(old(b.client), s.entries, env).ToOption()
    ensures ClientFor(old(b.client), s.entries, env).Failure? ==>
      r == Failure(ClientFor(old(b.client), s.entries, env).error) && g.log == old(g.log)
    ensures ClientFor(old(b.client), s.entries, env).Success? ==>
      && g.log == old(g.log) + [GetActiveKey(id)]
      && r == Success(g.ActiveKey(id).Success? && g.ActiveKey(id).value.kid != "")
  {
    var client := b.GetClient(s, env);
    if client.Failure? {
      return Failure(client.error);
    }
    var key, _ := GetKey(client.value, g, id);
    r := Success(key.kid != "");
  }

  /** `pathKeySetsCreate` */
  method Create(b: Backend, s: Storage<AzureConfig>, g: Platform, env: Env, id: string)
    returns (r: Result<Option<Response>, Error>)
    requires ValidateCreateId(id).None? ==> ClientReachable(b.client, s.entries, env)
    modifies b, s`trace, g
    ensures ValidateCreateId(id).Some? ==>
      r == Success(Some(ErrorResponse(ValidateCreateId(id).value))) && unchanged(b, s, g)
    ensures ValidateCreateId(id).None? ==>
      && b.clientRequests == old(b.clientRequests) + 1
      && b.client == ClientFor(old(b.client), s.entries, env).ToOption()
      && (ClientFor(old(b.client), s.entries, env).Failure? ==>
            r == Failure(ClientFor(old(b.client), s.entries, env).error) && g.log == old(g.log))
      && (ClientFor(old(b.client), s.entries, env).Success? ==>
            g.log == old(g.log) + [CreateKeySet(id)] && r == Mutated(g.Outcome(CreateKeySet(id))))
  {
    var invalid := ValidateCreateId(id);
    if invalid.Some? {
      return Success(Some(ErrorResponse(invalid.value)));
    }
    var client := b.GetClient(s, env);
    if client.Failure? {
      return Failure(client.error);
    }
    var posted := g.Send(CreateKeySet(id));
    if posted.Failure? {
      return Failure(posted.error);
    }
    r := Success(None);
  }

  /** A mutator's answer once its remote call has been made: no response, or the remote error. */
  function Mutated(outcome: Result<(), Error>): (r: Result<Option<Response>, Error>)
    ensures outcome.Success? <==> r == Success(None)
    ensures outcome.Failure? ==> r == Failure(outcome.error)
  {
    match outcome
    case Success(_) => Success(None)
    case Failure(e) => Failure(e)
  }

  /** `pathKeySetsUploadSecret`; `nbfNow` and `expNow` are the two clock readings. */
  method UploadSecret(b: Backend, s: Storage<AzureConfig>, g: Platform, env: Env,
                      id: string, secret: string, use: string, nbfNow: int, expNow: int)
    returns (r: Result<Option<Response>, Error>)
    requires ValidateId(id).None? ==> ClientReachable(b.client, s.entries, env)
    modifies b, s`trace, g
    ensures ValidateId(id).Some? ==>
      r == Success(Some(ErrorResponse(IdPrefixRequired))) && unchanged(b, s, g)
    ensures ValidateId(id).None? ==>
      var w := ValidityWindow(nbfNow, expNow);
      var call := Graph.UploadSecret(id, UploadSecretBody(use, secret, w.nbf, w.exp));
      && b.clientRequests == old(b.clientRequests) + 1
      && b.client == ClientFor(old(b.client), s.entries, env).ToOption()
      && (ClientFor(old(b.client), s.entries, env).Failure? ==>
            r == Failure(ClientFor(old(b.client), s.entries, env).error) && g.log == old(g.log))
      && (ClientFor(old(b.client), s.entries, env).Success? ==>
            g.log == old(g.log) + [call] && r == Mutated(g.Outcome(call)))
  {
    if !HasPrefix(id, Prefix) {
      return Success(Some(ErrorResponse(IdPrefixRequired)));
    }
    var client := b.GetClient(s, env);
    if client.Failure? {
      return Failure(client.error);
    }
    var nbf := nbfNow;
    var exp := expNow + OneYear;
    var body := UploadSecretBody(use, secret, nbf, exp);
    var posted := g.Send(Graph.UploadSecret(id, body));
    if posted.Failure? {
      return Failure(posted.error);
    }
    r := Success(None);
  }

  /** `pathKeySetsDelete` */
  method Delete(b: Backend, s: Storage<AzureConfig>, g: Platform, env: Env, id: string)
    returns (r: Result<Option<Response>, Error>)
    requires ValidateId(id).None? ==> ClientReachable(b.client, s.entries, env)
    modifies b, s`trace, g
    ensures ValidateId(id).Some? ==>
      r == Success(Some(ErrorResponse(IdPrefixRequired))) && unchanged(b, s, g)
    ensures ValidateId(id).None? ==>
      && b.clientRequests == old(b.clientRequests) + 1
      && b.client == ClientFor(old(b.client), s.entries, env).ToOption()
      && (ClientFor(old(b.client), s.entries, env).Failure? ==>
            r == Failure(ClientFor(old(b.client), s.entries, env).error) && g.log == old(g.log))
      && (ClientFor(old(b.client), s.entries, env).Success? ==>
            g.log == old(g.log) + [DeleteKeySet(id)] && r == Mutated(g.Outcome(DeleteKeySet(id))))
  {
    if !HasPrefix(id, Prefix) {
      return Success(Some(ErrorResponse(IdPrefixRequired)));
    }
    var client := b.GetClient(s, env);
    if client.Failure? {
      return Failure(client.error);
    }
    var deleted := g.Send(DeleteKeySet(id));
    if deleted.Failure? {
      return Failure(deleted.error);
    }
    r := Success(None);
  }

  /** `pathKeySetsGenerateKey`; `nbfNow` and `expNow` are the two clock readings. */
  method GenerateKey(b: Backend, s: Storage<AzureConfig>, g: Platform, env: Env,
                     id: string, use: string, kty: string, nbfNow: int, expNow: int)
    returns (r: Result<Option<Response>, Error>)
    requires ValidateId(id).None? ==> ClientReachable(b.client, s.entries, env)
    modifies b, s`trace, g
    ensures ValidateId(id).Some? ==>
      r == Success(Some(ErrorResponse(IdPrefixRequired))) && unchanged(b, s, g)
    ensures ValidateId(id).None? ==>
      var w := ValidityWindow(nbfNow, expNow);
      var call := Graph.GenerateKey(id, GenerateKeyBody(use, kty, w.nbf, w.exp));
      && b.clientRequests == old(b.clientRequests) + 1
      && b.client == ClientFor(old(b.client), s.entries, env).ToOption()
      && (ClientFor(old(b.client), s.entries, env).Failure? ==>
            r == Failure(ClientFor(old(b.client), s.entries, env).error) && g.log == old(g.log))
      && (ClientFor(old(b.client), s.entries, env).Success? ==>
            g.log == old(g.log) + [call] && r == Mutated(g.Outcome(call)))
  {
    if !HasPrefix(id, Prefix) {
      return Success(Some(ErrorResponse(IdPrefixRequired)));
    }
    var client := b.GetClient(s, env);
    if client.Failure? {
      return Failure(client.error);
    }
    var nbf := nbfNow;
    var exp := expNow + OneYear;
    var body := GenerateKeyBody(use, kty, nbf, exp);
    var posted := g.Send(Graph.GenerateKey(id, body));
    if posted.Failure? {
      return Failure(posted.error);
    }
    r := Success(None);
  }

  /** The empty id gets the more specific message from Create and the prefix message from the others. */
  lemma EmptyIdMessages()
    ensures ValidateCreateId("") == Some(IdRequired)
    ensures ValidateId("") == Some(IdPrefixRequired)
  {
  }

  /** Apart from the empty id, Create validates exactly as the other mutators do. */
  lemma CreateValidatesLikeOthers(id: string)
    requires id != ""
    ensures ValidateCreateId(id) == ValidateId(id)
  {
  }

  /** An id that passes validation is the prefix followed by a (possibly empty) name. */
  lemma ValidIdShape(id: string)
    requires ValidateId(id).None?
    ensures id == Prefix + id[|Prefix|..]
  {
  }

  /** With a single clock reading the window is exactly one year and not empty. */
  lemma SingleReadingWindow(now: int)
    ensures ValidityWindow(now, now).exp - ValidityWindow(now, now).nbf == 31536000
    ensures ValidityWindow(now, now).nbf < ValidityWindow(now, now).exp
  {
  }

  /** With a clock that does not run backwards the window is at least one year. */
  lemma MonotoneWindow(nbfNow: int, expNow: int)
    requires nbfNow <= expNow
    ensures ValidityWindow(nbfNow, expNow).exp - ValidityWindow(nbfNow, expNow).nbf >= 31536000
    ensures ValidityWindow(nbfNow, expNow).nbf < ValidityWindow(nbfNow, expNow).exp
  {
  }

  /** A timestamp the platform omits is read as "n/a"; the other fields are copied. */
  lemma AbsentTimestampsReadNotApplicable(k: GraphKey, format: int -> string)
    ensures Display(FromGraph(k), format).kid == k.kid
    ensures Display(FromGraph(k), format).kty == k.kty
    ensures Display(FromGraph(k), format).use == k.use
    ensures k.exp.None? ==> Display(FromGraph(k), format).exp == NotApplicable
    ensures k.nbf.None? ==> Display(FromGraph(k), format).nbf == NotApplicable
  {
  }

  /** The key that `getKey` returns with an error never counts as existing. */
  lemma ZeroKeyReadsAbsent(format: int -> string)
    ensures ZeroKey.kid == ""
    ensures Display(ZeroKey, format) == DisplayKey("", "", "", NotApplicable, NotApplicable)
  {
  }

  /** Create on "", "bad-name" and "B2C_1A_Ok" with a cached client. */
  method CreateScenario(b: Backend, s: Storage<AzureConfig>, g: Platform, env: Env)
    returns (empty: Result<Option<Response>, Error>, bad: Result<Option<Response>, Error>, ok: Result<Option<Response>, Error>)
    requires b.client.Some? && g.log == [] && g.fault(CreateKeySet("B2C_1A_Ok")).None?
    modifies b, s`trace, g
    ensures empty == Success(Some(ErrorResponse("ID is required")))
    ensures bad == Success(Some(ErrorResponse("ID must start with B2C_1A_")))
    ensures ok == Success(None)
    ensures g.log == [CreateKeySet("B2C_1A_Ok")]
  {
    empty := Create(b, s, g, env, "");
    assert "bad-name"[..|Prefix|] != Prefix by {
      assert "bad-name"[0] != Prefix[0];
    }
    bad := Create(b, s, g, env, "bad-name");
    assert HasPrefix("B2C_1A_Ok", Prefix) by {
      assert "B2C_1A_Ok"[..|Prefix|] == Prefix;
    }
    ok := Create(b, s, g, env, "B2C_1A_Ok");
  }

  /** List on a platform holding B2C_1A_Sig1 then B2C_1A_Enc1. */
  method ListScenario(b: Backend, s: Storage<AzureConfig>, g: Platform, env: Env) returns (r: Result<seq<string>, Error>)
    requires b.client.Some? && g.fault(ListKeySets).None?
    requires g.keySets == [GraphKeySet("B2C_1A_Sig1"), GraphKeySet("B2C_1A_Enc1")]
    modifies b, s`trace, g
    ensures r.Success? && r.value == ["B2C_1A_Sig1", "B2C_1A_Enc1"]
  {
    r := List(b, s, g, env);
    assert |r.value| == 2;
    assert r.value[0] == "B2C_1A_Sig1" && r.value[1] == "B2C_1A_Enc1";
  }
}
