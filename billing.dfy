/** The billing system's customers (the in-memory `MockBillingModel`): a map from customer
    id to the billing plan it is subscribed to (`None` for `null`), and the counter from
    which new customer ids are rendered. */
module Billing {
  import opened Wrappers
  import opened Text

  datatype BillingState = BillingState(customers: map<string, Option<string>>, nextId: nat)

  const NoSuchCustomer := "No such billing customer"

  /** Every existing customer id is the decimal rendering of a counter value already used. */
  predicate IdsBelowCounter(b: BillingState) {
    forall k :: k in b.customers ==> AllDigits(k) && DecimalValue(k) < b.nextId
  }

  /** `createCustomer`: the id is the current counter rendered in decimal; the customer
      starts without a plan. */
  function AddCustomer(b: BillingState): (string, BillingState) {
    var id := NatToDecimal(b.nextId);
    (id, BillingState(b.customers[id := None], b.nextId + 1))
  }

  /** `cancel(id)`: the customer's plan becomes `null`. */
  function CancelPlan(b: BillingState, id: string): (Outcome<string>, BillingState) {
    if id in b.customers then (Pass, b.(customers := b.customers[id := None]))
    else (Fail(NoSuchCustomer), b)
  }

  /** `subscribe(id, planId)`: the customer's plan becomes `planId`. */
  function SubscribePlan(b: BillingState, id: string, planId: string): (Outcome<string>, BillingState) {
    if id in b.customers then (Pass, b.(customers := b.customers[id := Some(planId)]))
    else (Fail(NoSuchCustomer), b)
  }

  /** `get(id)`: the plan the customer is subscribed to. */
  function PlanOf(b: BillingState, id: string): Result<Option<string>, string> {
    if id in b.customers then Success(b.customers[id]) else Failure(NoSuchCustomer)
  }

  /** The id `createCustomer` returns is new, denotes the old counter value, and the new
      customer has no plan; the counter moves on and the invariant is kept. */
  lemma CreateCustomerFresh(b: BillingState)
    requires IdsBelowCounter(b)
    ensures var (id, b') := AddCustomer(b);
      id !in b.customers
      && AllDigits(id) && DecimalValue(id) == b.nextId
      && b'.customers.Keys == b.customers.Keys + {id}
      && PlanOf(b', id) == Success(None)
      && (forall k :: k in b.customers ==> b'.customers[k] == b.customers[k])
      && IdsBelowCounter(b')
  {
    var id := NatToDecimal(b.nextId);
    DecimalRoundTrip(b.nextId);
  }

  /** Successive `createCustomer` calls never hand out the same id twice. */
  lemma CreateCustomerTwiceDistinct(b: BillingState)
    requires IdsBelowCounter(b)
    ensures var (id1, b1) := AddCustomer(b);
      var (id2, b2) := AddCustomer(b1);
      id1 != id2 && id1 in b2.customers && id2 in b2.customers
  {
    CreateCustomerFresh(b);
    CreateCustomerFresh(AddCustomer(b).1);
  }

  /** `subscribe` then `get` reports the new plan; subscribing twice to the same plan is
      subscribing once; an unknown customer is refused and nothing changes. */
  lemma SubscribeThenGet(b: BillingState, id: string, planId: string)
    ensures var (r, b') := SubscribePlan(b, id, planId);
      (r.Pass? <==> id in b.customers)
      && (r.Pass? ==> PlanOf(b', id) == Success(Some(planId)))
      && (r.Fail? ==> r.error == NoSuchCustomer && b' == b)
      && SubscribePlan(b', id, planId) == (r, b')
  {
    if id in b.customers {
      var m := b.customers[id := Some(planId)];
      assert m[id := Some(planId)] == m;
    }
  }

  /** `cancel` then `get` reports no plan; an unknown customer is refused and nothing
      changes. */
  lemma CancelThenGet(b: BillingState, id: string)
    ensures var (r, b') := CancelPlan(b, id);
      (r.Pass? <==> id in b.customers)
      && (r.Pass? ==> PlanOf(b', id) == Success(None))
      && (r.Fail? ==> r.error == NoSuchCustomer && b' == b)
  {
  }

  /** `cancel` and `subscribe` touch only the named customer: every other customer keeps
      its plan, no customer appears or disappears, and the counter is unchanged. */
  lemma UpdatesAreLocal(b: BillingState, id: string, planId: string, other: string)
    requires other != id
    ensures var b1 := CancelPlan(b, id).1;
      var b2 := SubscribePlan(b, id, planId).1;
      b1.customers.Keys == b.customers.Keys && b2.customers.Keys == b.customers.Keys
      && b1.nextId == b.nextId && b2.nextId == b.nextId
      && PlanOf(b1, other) == PlanOf(b, other) && PlanOf(b2, other) == PlanOf(b, other)
  {
  }

  /** The billing customers. */
  class MockBillingModel {
    var customers: map<string, Option<string>>
    var nextId: nat

    function State(): BillingState
      reads this
    {
      BillingState(customers, nextId)
    }

    constructor ()
      ensures State() == BillingState(map[], 0)
    {
      customers := map[];
      nextId := 0;
    }

    method Cancel(id: string) returns (r: Outcome<string>)
      modifies this
      ensures (r, State()) == CancelPlan(old(State()), id)
    {
      if id !in customers {
        return Fail(NoSuchCustomer);
      }
      customers := customers[id := None];
      r := Pass;
    }

    /** The customer's names are passed along by callers but not stored. */
    method CreateCustomer() returns (id: string)
      modifies this
      ensures (id, State()) == AddCustomer(old(State()))
    {
      id := NatToDecimal(nextId);
      nextId := nextId + 1;
      customers := customers[id := None];
    }

    method Get(id: string) returns (r: Result<Option<string>, string>)
      ensures r.Success? <==> id in customers
      ensures r.Success? ==> r.value == customers[id]
      ensures r.Failure? ==> r.error == NoSuchCustomer
    {
      if id !in customers {
        return Failure(NoSuchCustomer);
      }
      r := Success(customers[id]);
    }

    method Subscribe(id: string, planId: string) returns (r: Outcome<string>)
      modifies this
      ensures (r, State()) == SubscribePlan(old(State()), id, planId)
    {
      if id !in customers {
        return Fail(NoSuchCustomer);
      }
      customers := customers[id := Some(planId)];
      r := Pass;
    }
  }
}
