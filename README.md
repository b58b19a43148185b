# Azure AD B2C trust-framework keyset engine, modelled in Dafny

This project models the core of a Vault secrets engine that manages the signing and
encryption keysets of an Azure AD B2C tenant's trust framework through Microsoft Graph.
The model has three stateful layers, and it states and proves what each one guarantees:

- **Credential store** (`plugin/path_config.go`, module `Config`). A four-string
  `AzureConfig` record is kept in the host's storage under the fixed key `"config"`.
  A read returns four empty strings when nothing is stored. A write merges the fields it
  supplies onto the stored record, or onto the empty record, and then puts the result.
- **Client cache** (`plugin/backend.go`, module `Engine`). `Backend.client` is a lazily
  built Graph client. It is installed only after the config read, the credential
  construction and the client construction all succeed, and it is never refreshed.
- **Keyset handlers** (`plugin/path_keysets.go`, module `KeySets`). Create, upload-secret,
  generate-key and delete first validate the id locally (`B2C_1A_` prefix; Create also
  rejects the empty id first). Only then do they get a client and issue exactly one
  remote call. Read maps the active key into a display record, with `"n/a"` for
  timestamps that are not positive. List projects the platform's keysets to their ids in
  the platform's order. The existence check swallows key-read errors but not client errors.

The collaborators are modelled as state plus oracles:

- `Storage.Storage<T>` is the host's key-value storage. Whether a `Get` or a `Put` fails
  is a parameter of the call. A ghost `trace` records every access.
- `Graph.Platform` is the remote platform. It holds the listed keysets in order, the
  active key per keyset id, and a function saying which calls fail. Every call made is
  appended to `log`, so "no remote call" and "exactly one remote call carrying this id"
  are statements about `log`.
- `Engine.Env` stands for the credential and client constructors (`azidentity`, the Graph
  SDK). Each is a fault oracle over its arguments. A built credential or client is the
  record of what it was built from.
- `Engine.Backend.clientRequests` is a ghost counter of `GetClient` calls. It shows that a
  rejected id never asks for a client.

The source reads the clock twice in the upload and generate handlers: once for `nbf`, and
once more for `exp = now + 365 days`. The model therefore takes two clock readings,
`nbfNow` and `expNow`. This makes `exp - nbf` equal to one year plus the time between
the two readings. It is exactly 31536000 only when both readings fall in the same second.
A single-reading description of the window would not match the code, so the model
follows the code.

## Model

| member | source | states |
|---|---|---|
| `Config.Merge` | plugin/path_config.go:97-111 | every field the request supplies takes the supplied value; every absent field keeps its previous value |
| `Config.GetConfig` | plugin/path_config.go:71-85 | reads storage key "config" once; a storage error is returned; no entry gives absent (nil, nil); an undecodable entry gives a decode error; otherwise the stored record |
| `Config.ConfigRead` | plugin/path_config.go:51-69 | returns the stored four values, four empty strings when nothing is stored, or the storage/decode error |
| `Config.ConfigWrite` | plugin/path_config.go:87-123 | a read or decode error is returned and nothing is persisted; otherwise the merged record is put under "config"; a put error is returned and leaves storage unchanged; the access trace is read-then-put |
| `Config.WriteStoresMerge` | plugin/path_config.go:113-120 | after a successful write, "config" holds the merge of the previous record (or the empty one) with the request, and no other entry changes |
| `Config.WriteOntoNothing` | plugin/path_config.go:93-95 | with no stored record, the write merges onto the all-empty config |
| `Config.WriteOntoMalformed` | plugin/path_config.go:88-91 | a stored entry that does not decode makes the write fail with the decode error |
| `Config.ReadAfterWrite` | plugin/path_config.go:97-120 | a read after a successful write returns the supplied values, and for absent fields the previously stored values |
| `Config.MergeIdempotent` | plugin/path_config.go:97-111 | merging the same request twice equals merging it once |
| `Config.WriteIdempotent` | plugin/path_config.go:97-120 | applying the same write twice leaves the same storage as applying it once |
| `Config.MergeTwice` | plugin/path_config.go:97-111 | two successive writes equal one write of the overlaid request: later values win and untouched fields survive |
| `Config.MergeScenario` | plugin/path_config.go:87-123 | writing {client_id X} after {tenant_id T, client_id Y} onto empty storage reads back tenant T, client X |
| `Engine.ClientFor` | plugin/backend.go:52-75 | a cached client is returned as is; otherwise the storage error, the decode error, the credential error or the client error is returned unchanged, in that order; on success the client is built from tenant id, client id and secret with the single scope https://graph.microsoft.com/.default |
| `Engine.Backend.constructor` | plugin/backend.go:24 | a new backend has no cached client |
| `Engine.Backend.GetClient` | plugin/backend.go:52-75 | returns what ClientFor states; storage is read only when no client is cached; the cache afterwards holds exactly a successful result, so a failure leaves it unset and a cached client is never replaced |
| `Engine.ClientIgnoresSubscription` | plugin/backend.go:62 | changing the stored subscription id does not change the client built |
| `Engine.CachedClientIsKept` | plugin/backend.go:53-55 | with a client cached, every call returns it whatever the storage holds |
| `Engine.NeverRefreshed` | plugin/backend.go:53-72 | after a successful first call, a stored config change does not change what the next call returns; a failed first call leaves the cache unset |
| `KeySets.ValidateCreateId` | plugin/path_keysets.go:213-219 | Create accepts exactly the non-empty ids with the B2C_1A_ prefix; the empty id yields "ID is required", a non-empty unprefixed id "ID must start with B2C_1A_" |
| `KeySets.ValidateId` | plugin/path_keysets.go:243-245 | upload, generate and delete accept exactly the prefixed ids and otherwise yield "ID must start with B2C_1A_" |
| `KeySets.EmptyIdMessages` | plugin/path_keysets.go:215-216 | the empty id gets "ID is required" from Create and the prefix message from the other mutators |
| `KeySets.CreateValidatesLikeOthers` | plugin/path_keysets.go:215-219 | for a non-empty id Create's check agrees with the prefix-only check |
| `KeySets.ValidIdShape` | plugin/path_keysets.go:243 | an accepted id is B2C_1A_ followed by the rest of the id |
| `KeySets.ValidityWindow` | plugin/path_keysets.go:255-258 | nbf is the first clock reading and exp - nbf is 31536000 plus the gap between the two readings |
| `KeySets.SingleReadingWindow` | plugin/path_keysets.go:307-310 | with one clock reading, exp - nbf is 31536000 and nbf < exp |
| `KeySets.MonotoneWindow` | plugin/path_keysets.go:255-258 | with a clock that does not go back, the window is at least one year and nbf < exp |
| `KeySets.Display` | plugin/path_keysets.go:120-136 | kid, kty and use are copied; exp and nbf are "n/a" when not positive and the formatted timestamp otherwise |
| `KeySets.AbsentTimestampsReadNotApplicable` | plugin/path_keysets.go:147-159 | a timestamp absent from the remote key is stored as 0 and so reads as "n/a"; kid, kty, use are copied |
| `KeySets.ZeroKeyReadsAbsent` | plugin/path_keysets.go:141-145 | the zero key returned with an error has an empty kid |
| `KeySets.GetKey` | plugin/path_keysets.go:140-162 | exactly one get-active-key call for the name; on error the zero key and that error; otherwise the remote key with absent exp/nbf as 0 |
| `KeySets.ProjectKeySets` | plugin/path_keysets.go:190-196 | one keyset record per listed keyset, same length, same order, ids copied, no keys |
| `KeySets.KeySetIds` | plugin/path_keysets.go:175-179 | one id per keyset, same length, same order |
| `KeySets.ListKeys` | plugin/path_keysets.go:184-199 | exactly one list call; a remote error is returned; otherwise one record per remote keyset in the platform's order |
| `KeySets.List` | plugin/path_keysets.go:164-182 | a client error is returned with no remote call; otherwise one list call, and the ids of the platform's keysets in its order, or the remote error |
| `KeySets.ListScenario` | plugin/path_keysets.go:164-182 | a platform holding B2C_1A_Sig1 then B2C_1A_Enc1 lists exactly those two ids in that order |
| `KeySets.Read` | plugin/path_keysets.go:108-138 | no id validation; a client error is returned with no remote call; otherwise one get-active-key call, and either its error or the display record of the key |
| `KeySets.ExistenceCheck` | plugin/path_keysets.go:201-210 | a client error is returned; otherwise one get-active-key call and the answer "the read succeeded with a non-empty kid"; a failed read gives false and no error |
| `KeySets.Mutated` | plugin/path_keysets.go:229-234 | after its remote call a mutator returns no response and no error exactly when the call succeeded, and otherwise the remote error unchanged |
| `KeySets.Create` | plugin/path_keysets.go:212-235 | a rejected id returns the validation response and changes nothing (no client request, no storage access, no remote call); otherwise one client request, then a client error is returned with no remote call, or exactly one create call carrying only the id and its outcome |
| `KeySets.CreateScenario` | plugin/path_keysets.go:212-235 | "" gives "ID is required", "bad-name" gives the prefix message, "B2C_1A_Ok" succeeds, and the only remote call is one create of "B2C_1A_Ok" |
| `KeySets.UploadSecret` | plugin/path_keysets.go:237-266 | as Create, with the prefix-only check; the one upload call carries use and k verbatim and the window nbf = first reading, exp = second reading + one year |
| `KeySets.Delete` | plugin/path_keysets.go:268-287 | as Create, with the prefix-only check and exactly one delete call carrying the id |
| `KeySets.GenerateKey` | plugin/path_keysets.go:289-318 | as Create, with the prefix-only check; the one generate call carries use and kty verbatim and the same window as the upload |

## Left out

- Path and schema registration (`pathKeys`, `pathConfig`, `Backend`, `Factory`, `PathsSpecial`, help texts): declarative routing for the host framework. This includes the field defaults `use = "sig"` and `kty = "RSA"`; the handlers take `use` and `kty` as given.
- The Microsoft Graph SDK and `azidentity`: foreign libraries. They appear only as fault oracles, and a built credential or client is the record of its inputs.
- Timestamp formatting (`time.Unix(...).Local().Format(...)`) depends on the local time zone. It is the parameter `format` of `KeySets.Read`; only the choice between "n/a" and a formatted value is modelled.
- The clock (`time.Now()`): the two readings are parameters of `KeySets.UploadSecret` and `KeySets.GenerateKey`.
- JSON encoding and decoding of storage entries: records are stored as values, and an entry that would not decode is `Malformed`. `StorageEntryJSON` of four strings cannot fail, so the model has no encode-error path.
- 64-bit integers: timestamps are unbounded `int`. The source's `int64` arithmetic `now + 31536000` cannot overflow for real clock readings.
- Concurrency: the race on `b.client` between concurrent first requests is not modelled. Each operation runs on its own.
- `context.Background()` versus the request context, and the request context in general: neither changes behaviour here.
- Nil dereferences of SDK getters in `getKey` and `listKeys` (`*key.GetKid()`, `*keySet.GetId()`): the SDK is taken to return these fields.
- Engine.Backend.GetClient: with no cached client, no storage fault and no stored config, the source dereferences the nil config returned by `getConfig` and crashes. The model excludes that case by precondition (`Engine.ClientReachable`), and so does every handler that calls it once validation passes.
- What a successful mutation does to the remote platform (a new keyset, a new active key, a removed keyset) is the platform's business. The model records the call in `Graph.Platform.log`, and the platform's listing and active keys stay fixed.
