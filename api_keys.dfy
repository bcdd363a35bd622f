/** The API key store as the controllers use it (`generate`, `getAccountIdByKey`): keys
    are drawn from a given stream of random keys, each bound to the account id it was
    generated for (`None` when that argument was `undefined`). Key expiry is not part of
    this model. */
module ApiKeys {
  import opened Wrappers

  datatype KeyState = KeyState(owners: map<string, Option<string>>, issued: nat)

  /** `generate(owner)`: the next random key, bound to `owner`. */
  function IssueKey(k: KeyState, keyStream: nat -> string, owner: Option<string>): (string, KeyState) {
    var key := keyStream(k.issued);
    (key, KeyState(k.owners[key := owner], k.issued + 1))
  }

  /** `getAccountIdByKey(key)`: the bound account id, `None` for an unknown key. */
  function AccountIdByKey(k: KeyState, key: string): Option<string> {
    if key in k.owners then k.owners[key] else None
  }

  /** A generated key looks up the owner it was generated for; every other key keeps its
      binding. */
  lemma GenerateThenLookup(k: KeyState, keyStream: nat -> string, owner: Option<string>, other: string)
    ensures var (key, k') := IssueKey(k, keyStream, owner);
      AccountIdByKey(k', key) == owner
      && (other != key ==> AccountIdByKey(k', other) == AccountIdByKey(k, other))
  {
  }

  class ApiKeyStore {
    var owners: map<string, Option<string>>
    var issued: nat
    /** The random keys, in the order they are drawn. */
    const keyStream: nat -> string

    function State(): KeyState
      reads this
    {
      KeyState(owners, issued)
    }

    constructor (keyStream: nat -> string)
      ensures State() == KeyState(map[], 0) && this.keyStream == keyStream
    {
      owners := map[];
      issued := 0;
      this.keyStream := keyStream;
    }

    method Generate(owner: Option<string>) returns (key: string)
      modifies this
      ensures (key, State()) == IssueKey(old(State()), keyStream, owner)
    {
      key := keyStream(issued);
      owners := owners[key := owner];
      issued := issued + 1;
    }

    method GetAccountIdByKey(key: string) returns (owner: Option<string>)
      ensures owner == AccountIdByKey(State(), key)
    {
      owner := if key in owners then owners[key] else None;
    }
  }
}
