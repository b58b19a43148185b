/**
  The remote identity platform as the plugin sees it through the Microsoft Graph
  client: the keysets it lists (in its own order), the active key of each keyset,
  and, for every call, whether the call fails. What a successful mutation does to
  the platform is the platform's business; the plugin only issues the call, so a
  call shows up here as an entry of `log`.
*/
module Graph {
  import opened Wrappers
  import opened Errors

  /** A trust-framework key as returned by the Graph SDK; `exp` and `nbf` may be absent. */
  datatype GraphKey = GraphKey(kid: string, kty: string, use: string, exp: Option<int>, nbf: Option<int>)

  /** A trust-framework keyset as listed by the Graph SDK. */
  datatype GraphKeySet = GraphKeySet(id: string)

  /** Body of the `uploadSecret` action. */
  datatype UploadSecretBody = UploadSecretBody(use: string, k: string, nbf: int, exp: int)

  /** Body of the `generateKey` action. */
  datatype GenerateKeyBody = GenerateKeyBody(use: string, kty: string, nbf: int, exp: int)

  /** One remote call, with everything it carries. `CreateKeySet` carries only the id. */
  datatype Call =
    | ListKeySets
    | GetActiveKey(id: string)
    | CreateKeySet(id: string)
    | DeleteKeySet(id: string)
    | UploadSecret(id: string, upload: UploadSecretBody)
    | GenerateKey(id: string, generate: GenerateKeyBody)

  class Platform {
    /** Every remote call issued so far, oldest first. */
    var log: seq<Call>
    const keySets: seq<GraphKeySet>
    const activeKeys: map<string, GraphKey>
    const fault: Call -> Option<Error>

    constructor (keySets: seq<GraphKeySet>, activeKeys: map<string, GraphKey>, fault: Call -> Option<Error>)
      ensures log == [] && this.keySets == keySets && this.activeKeys == activeKeys && this.fault == fault
    {
      log := [];
      this.keySets := keySets;
      this.activeKeys := activeKeys;
      this.fault := fault;
    }

    /** What `GetActiveKey(id)` answers. */
    function ActiveKey(id: string): Result<GraphKey, Error> {
      match fault(GetActiveKey(id))
      case Some(e) => Failure(e)
      case None => if id in activeKeys then Success(activeKeys[id]) else Failure(NotFound(id))
    }

    /** What a call that returns no data answers. */
    function Outcome(c: Call): Result<(), Error> {
      match fault(c)
      case Some(e) => Failure(e)
      case None => Success(())
    }

    /** `TrustFramework().KeySets().Get` */
    method List() returns (r: Result<seq<GraphKeySet>, Error>)
      modifies this
      ensures log == old(log) + [ListKeySets]
      ensures r == match fault(ListKeySets) case Some(e) => Failure(e) case None => Success(keySets)
    {
      log := log + [ListKeySets];
      match fault(ListKeySets)
      case Some(e) => r := Failure(e);
      case None => r := Success(keySets);
    }

    /** `TrustFramework().KeySets().ByTrustFrameworkKeySetId(id).GetActiveKey().Get` */
    method GetActive(id: string) returns (r: Result<GraphKey, Error>)
      modifies this
      ensures log == old(log) + [GetActiveKey(id)]
      ensures r == ActiveKey(id)
    {
      log := log + [GetActiveKey(id)];
      r := ActiveKey(id);
    }

    /** Any call that answers with no data: post, delete, upload, generate. */
    method Send(c: Call) returns (r: Result<(), Error>)
      requires c.CreateKeySet? || c.DeleteKeySet? || c.UploadSecret? || c.GenerateKey?
      modifies this
      ensures log == old(log) + [c]
      ensures r == Outcome(c)
    {
      log := log + [c];
      r := Outcome(c);
    }
  }
}
