/** Reconciliation of Router Limits account events with the billing system
    (`RouterLimitsWebhookController`): an account creation makes a billing customer and
    maps the account to it; a plan change or a cancellation is carried over to that
    customer. Each handler runs as one atomic step. */
module RouterLimitsWebhookControl {
  import opened Wrappers
  import opened JsonValues
  import opened Accounts
  import opened Billing
  import opened Plans

  /** The state the handlers read and change. */
  datatype Reconciliation = Reconciliation(accounts: Directory, billing: BillingState)

  /** A call of one of the three handlers, as a receiver makes it. */
  datatype ControllerCall =
    | AccountCreatedCall(timestamp: int, accountId: string, firstName: Json, lastName: Json, email: Json)
    | SubscriptionChangeCall(timestamp: int, accountId: string, planId: string)
    | SubscriptionCancelCall(timestamp: int, accountId: string)

  const NoSuchAccount := "No such account is known"
  const NoSuchPlan := "No such plan is known"

  /** The directory and the billing system agree: records are keyed by their id, billing
      ids are below the customer counter, and every mapped account's billing customer
      exists. */
  predicate Consistent(s: Reconciliation) {
    KeyedById(s.accounts)
    && IdsBelowCounter(s.billing)
    && forall k :: k in s.accounts ==> s.accounts[k].billingId in s.billing.customers
  }

  /** `handleAccountCreated`: nothing to do for a known account; otherwise a new billing
      customer, then the mapping to it. */
  function OnAccountCreated(s: Reconciliation, accountId: string): (Outcome<string>, Reconciliation) {
    if accountId in s.accounts then (Pass, s)
    else
      var (billingId, billing') := AddCustomer(s.billing);
      var (r, accounts') := CreateMapping(s.accounts, accountId, billingId);
      (r, Reconciliation(accounts', billing'))
  }

  /** `handleAccountSubscriptionCancel`: cancel the mapped customer's plan. */
  function OnSubscriptionCancel(s: Reconciliation, accountId: string): (Outcome<string>, Reconciliation) {
    match Lookup(s.accounts, accountId)
    case None => (Fail(NoSuchAccount), s)
    case Some(account) =>
      var (r, billing') := CancelPlan(s.billing, account.billingId);
      (r, s.(billing := billing'))
  }

  /** `handleAccountSubscriptionChange`: subscribe the mapped customer to the billing plan
      the Router Limits plan corresponds to. */
  function OnSubscriptionChange(s: Reconciliation, plans: map<string, Plan>, accountId: string, planId: string)
    : (Outcome<string>, Reconciliation)
  {
    match Lookup(s.accounts, accountId)
    case None => (Fail(NoSuchAccount), s)
    case Some(account) =>
      if planId !in plans then (Fail(NoSuchPlan), s)
      else
        var (r, billing') := SubscribePlan(s.billing, account.billingId, plans[planId].billingId);
        (r, s.(billing := billing'))
  }

  /** The effect of one handler call. */
  function Handle(s: Reconciliation, plans: map<string, Plan>, call: ControllerCall): (Outcome<string>, Reconciliation) {
    match call
    case AccountCreatedCall(_, accountId, _, _, _) => OnAccountCreated(s, accountId)
    case SubscriptionChangeCall(_, accountId, planId) => OnSubscriptionChange(s, plans, accountId, planId)
    case SubscriptionCancelCall(_, accountId) => OnSubscriptionCancel(s, accountId)
  }

  /** An account-created event for an unknown account creates exactly one new billing
      customer, without a plan, and maps the account to it; for a known account it changes
      nothing. A second delivery of the same event therefore changes nothing further. */
  lemma AccountCreatedOnce(s: Reconciliation, accountId: string)
    requires Consistent(s)
    ensures var (r1, s1) := OnAccountCreated(s, accountId);
      r1.Pass?
      && (accountId in s.accounts ==> s1 == s)
      && (accountId !in s.accounts ==>
            s1.accounts.Keys == s.accounts.Keys + {accountId}
            && s1.accounts[accountId].billingId !in s.billing.customers
            && s1.billing.customers.Keys == s.billing.customers.Keys + {s1.accounts[accountId].billingId}
            && PlanOf(s1.billing, s1.accounts[accountId].billingId) == Success(None)
            && |s1.billing.customers| == |s.billing.customers| + 1)
      && OnAccountCreated(s1, accountId) == (Pass, s1)
  {
    if accountId !in s.accounts {
      CreateCustomerFresh(s.billing);
      var id := AddCustomer(s.billing).0;
      assert |s.billing.customers.Keys + {id}| == |s.billing.customers.Keys| + 1;
    }
  }

  /** Cancelling for an unknown account fails and changes nothing; for a known account (in
      a consistent state) it succeeds, after which the customer has no plan, and the
      directory is untouched. */
  lemma SubscriptionCancelEffect(s: Reconciliation, accountId: string)
    requires Consistent(s)
    ensures var (r, s') := OnSubscriptionCancel(s, accountId);
      s'.accounts == s.accounts
      && (accountId !in s.accounts ==> r == Fail(NoSuchAccount) && s' == s)
      && (accountId in s.accounts ==>
            r.Pass? && PlanOf(s'.billing, s.accounts[accountId].billingId) == Success(None))
  {
  }

  /** A plan change fails, leaving everything unchanged, when the account or the plan is
      unknown (the account is reported first); otherwise (in a consistent state) it
      succeeds and the customer's plan becomes the mapped billing plan. */
  lemma SubscriptionChangeEffect(s: Reconciliation, plans: map<string, Plan>, accountId: string, planId: string)
    requires Consistent(s)
    ensures var (r, s') := OnSubscriptionChange(s, plans, accountId, planId);
      s'.accounts == s.accounts
      && (accountId !in s.accounts ==> r == Fail(NoSuchAccount) && s' == s)
      && (accountId in s.accounts && planId !in plans ==> r == Fail(NoSuchPlan) && s' == s)
      && (accountId in s.accounts && planId in plans ==>
            r.Pass? && PlanOf(s'.billing, s.accounts[accountId].billingId) == Success(Some(plans[planId].billingId)))
  {
  }

  /** Every handler keeps the directory and the billing system consistent. */
  lemma HandlePreservesConsistency(s: Reconciliation, plans: map<string, Plan>, call: ControllerCall)
    requires Consistent(s)
    ensures Consistent(Handle(s, plans, call).1)
  {
    match call
    case AccountCreatedCall(_, accountId, _, _, _) =>
      if accountId !in s.accounts {
        CreateCustomerFresh(s.billing);
        CreateKeepsKeyedById(s.accounts, accountId, AddCustomer(s.billing).0);
      }
    case SubscriptionChangeCall(_, accountId, planId) =>
    case SubscriptionCancelCall(_, accountId) =>
  }

  /** The event timestamp passed to a handler has no effect on its outcome. */
  lemma TimestampIgnored(s: Reconciliation, plans: map<string, Plan>, call: ControllerCall, t: int)
    ensures Handle(s, plans, call.(timestamp := t)) == Handle(s, plans, call)
  {
  }

  /** The handlers, over the account directory, the billing customers and the plan table. */
  class RouterLimitsWebhookController {
    const billing: MockBillingModel
    const accounts: MockAccountsModel
    const plans: PlansModel

    function State(): Reconciliation
      reads accounts, billing
    {
      Reconciliation(accounts.accounts, billing.State())
    }

    constructor (billing: MockBillingModel, accounts: MockAccountsModel, plans: PlansModel)
      ensures this.billing == billing && this.accounts == accounts && this.plans == plans
    {
      this.billing := billing;
      this.accounts := accounts;
      this.plans := plans;
    }

    /** The names are passed to the billing system, which does not keep them. */
    method HandleAccountCreated(timestamp: int, accountId: string, firstName: Json, lastName: Json, email: Json)
      returns (r: Outcome<string>)
      modifies accounts, billing
      ensures (r, State()) == OnAccountCreated(old(State()), accountId)
    {
      var account := accounts.Get(accountId);
      if account.Some? {
        return Pass;
      }
      var billingId := billing.CreateCustomer();
      r := accounts.Create(accountId, billingId);
    }

    method HandleAccountSubscriptionCancel(timestamp: int, accountId: string) returns (r: Outcome<string>)
      modifies billing
      ensures (r, State()) == OnSubscriptionCancel(old(State()), accountId)
    {
      var account := accounts.Get(accountId);
      if account.None? {
        return Fail(NoSuchAccount);
      }
      r := billing.Cancel(account.value.billingId);
    }

    method HandleAccountSubscriptionChange(timestamp: int, accountId: string, planId: string) returns (r: Outcome<string>)
      modifies billing
      ensures (r, State()) == OnSubscriptionChange(old(State()), plans.byId, accountId, planId)
    {
      var account := accounts.Get(accountId);
      var plan := plans.Get(planId);
      if account.None? {
        return Fail(NoSuchAccount);
      }
      if plan.None? {
        return Fail(NoSuchPlan);
      }
      r := billing.Subscribe(account.value.billingId, plan.value.billingId);
    }
  }
}
