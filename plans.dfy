/** The plan table: Router Limits plan id to the billing-system plan it corresponds to
    (`PlansModel`), built once from the configured list. */
module Plans {
  import opened Wrappers

  datatype Plan = Plan(id: string, billingId: string)

  /** The map the constructor builds: each plan stored under its id, a later plan
      replacing an earlier one with the same id. */
  function Indexed(ps: seq<Plan>): map<string, Plan>
    decreases |ps|
  {
    if ps == [] then map[] else Indexed(ps[..|ps| - 1])[ps[|ps| - 1].id := ps[|ps| - 1]]
  }

  /** The keys are exactly the ids of the input, and each stored plan has its key as id. */
  lemma {:induction false} IndexedKeys(ps: seq<Plan>, k: string)
    ensures k in Indexed(ps) <==> exists i :: 0 <= i < |ps| && ps[i].id == k
    ensures k in Indexed(ps) ==> Indexed(ps)[k].id == k
    decreases |ps|
  {
    if ps != [] {
      var init := ps[..|ps| - 1];
      IndexedKeys(init, k);
      if k in Indexed(init) {
        var i :| 0 <= i < |init| && init[i].id == k;
        assert ps[i].id == k;
      }
      if exists i :: 0 <= i < |ps| && ps[i].id == k {
        var i :| 0 <= i < |ps| && ps[i].id == k;
        if i < |ps| - 1 {
          assert init[i].id == k;
        }
      }
    }
  }

  /** With duplicate ids, the last occurrence wins. */
  lemma {:induction false} LastOccurrenceWins(ps: seq<Plan>, j: nat)
    requires j < |ps|
    requires forall i :: j < i < |ps| ==> ps[i].id != ps[j].id
    ensures ps[j].id in Indexed(ps) && Indexed(ps)[ps[j].id] == ps[j]
    decreases |ps|
  {
    if j < |ps| - 1 {
      var init := ps[..|ps| - 1];
      assert init[j] == ps[j];
      LastOccurrenceWins(init, j);
    }
  }

  /** The plan table object. */
  class PlansModel {
    var byId: map<string, Plan>

    constructor (plans: seq<Plan>)
      ensures byId == Indexed(plans)
    {
      var m := map[];
      var i := 0;
      while i < |plans|
        invariant 0 <= i <= |plans|
        invariant m == Indexed(plans[..i])
      {
        assert plans[..i + 1][..i] == plans[..i];
        m := m[plans[i].id := plans[i]];
        i := i + 1;
      }
      assert plans[..i] == plans;
      byId := m;
    }

    method Get(id: string) returns (p: Option<Plan>)
      ensures p.Some? <==> id in byId
      ensures p.Some? ==> p.value == byId[id]
    {
      if id in byId {
        p := Some(byId[id]);
      } else {
        p := None;
      }
    }
  }
}
