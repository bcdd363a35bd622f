/** The account directory: a map from a Router Limits account id to the account record
    holding its billing-system id (the in-memory `MockAccountsModel`). */
module Accounts {
  import opened Wrappers

  datatype Account = Account(id: string, billingId: string)

  type Directory = map<string, Account>

  /** Every record is stored under its own id. */
  predicate KeyedById(d: Directory) {
    forall k :: k in d ==> d[k].id == k
  }

  /** `get(id)`: the stored record, or `undefined`. */
  function Lookup(d: Directory, id: string): Option<Account> {
    if id in d then Some(d[id]) else None
  }

  /** `create(id, billingId)`: records a new mapping; repeating an existing mapping is
      accepted and changes nothing; rebinding an id to another billing id is refused. */
  function CreateMapping(d: Directory, id: string, billingId: string): (Outcome<string>, Directory) {
    if id in d then
      if d[id].billingId == billingId then (Pass, d) else (Fail("Already created"), d)
    else
      (Pass, d[id := Account(id, billingId)])
  }

  /** After a successful `create`, `get` returns a record with the requested billing id;
      the only failure is a conflicting earlier mapping, and it leaves the map unchanged. */
  lemma CreateThenGet(d: Directory, id: string, billingId: string)
    requires KeyedById(d)
    ensures var (r, d') := CreateMapping(d, id, billingId);
      (r.Pass? ==> Lookup(d', id) == Some(Account(id, billingId)))
      && (r.Fail? <==> id in d && d[id].billingId != billingId)
      && (r.Fail? ==> r.error == "Already created" && d' == d)
  {
  }

  /** `create` adds at most the one requested entry and never alters an existing one, so
      a billing id, once mapped, never changes. */
  lemma CreateKeepsOthers(d: Directory, id: string, billingId: string)
    ensures var d' := CreateMapping(d, id, billingId).1;
      d'.Keys == d.Keys + (if id in d then {} else {id})
      && (forall k :: k in d ==> d'[k] == d[k])
  {
  }

  /** `create` keeps every record under its own id. */
  lemma CreateKeepsKeyedById(d: Directory, id: string, billingId: string)
    requires KeyedById(d)
    ensures KeyedById(CreateMapping(d, id, billingId).1)
  {
  }

  /** Repeating a `create` changes nothing further and succeeds whenever the first did. */
  lemma CreateIdempotent(d: Directory, id: string, billingId: string)
    ensures var (r1, d1) := CreateMapping(d, id, billingId);
      var (r2, d2) := CreateMapping(d1, id, billingId);
      d2 == d1 && (r1.Pass? ==> r2.Pass?)
  {
  }

  /** The in-memory account directory. */
  class MockAccountsModel {
    var accounts: Directory

    constructor ()
      ensures accounts == map[]
    {
      accounts := map[];
    }

    method Create(id: string, billingId: string) returns (r: Outcome<string>)
      modifies this
      ensures (r, accounts) == CreateMapping(old(accounts), id, billingId)
    {
      if id in accounts {
        var a := accounts[id];
        if a.billingId == billingId {
          return Pass;
        }
        return Fail("Already created");
      }
      accounts := accounts[id := Account(id, billingId)];
      r := Pass;
    }

    method Get(id: string) returns (a: Option<Account>)
      ensures a.Some? <==> id in accounts
      ensures a.Some? ==> a.value == accounts[id]
    {
      if id in accounts {
        a := Some(accounts[id]);
      } else {
        a := None;
      }
    }
  }
}
