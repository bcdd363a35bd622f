/** The inbound Stripe webhook endpoint (`StripeWebhookReceiver`). Stripe's own event
    verification (`constructEvent`: signature, tolerance window, parsing) is a given
    function. Only deleted subscriptions are acted on; every other event is acknowledged.
    Event ids are recorded once handled successfully, so a redelivery is not handled
    twice. */
module StripeWebhookReceiving {
  import opened Wrappers
  import opened Http
  import opened Expiry
  import opened BillingWebhookControl
  import R = RouterLimitsWebhookReceiving

  /** The `customer` of a subscription: an id, or an expanded customer object. */
  datatype CustomerRef = CustomerId(id: string) | CustomerRecord(id: string)

  /** The `plan` of a subscription; only its id is read. */
  datatype StripePlan = StripePlan(id: string)

  /** The `data.object` of a subscription event, with the fields that may be missing. */
  datatype SubscriptionObject = SubscriptionObject(customer: Option<CustomerRef>, plan: Option<StripePlan>)

  /** A verified event; `subscription` is `None` when `data` or `data.object` is missing. */
  datatype StripeEvent = StripeEvent(id: string, eventType: string, created: int, subscription: Option<SubscriptionObject>)

  /** What the endpoint reads from a request: the `stripe-signature` header and the body. */
  datatype StripeRequest = StripeRequest(signatureHeader: Option<string>, body: string)

  /** `constructEvent(body, signature)` at time `now`, with the configured secret and
      tolerance; `None` is the thrown verification error. */
  type EventVerifier = (string, string, int) -> Option<StripeEvent>

  /** The one call made to the billing webhook handler. */
  datatype BillingCall = BillingCall(timestamp: int, billingAccountId: string)

  const SubscriptionDeleted := "customer.subscription.deleted"
  const MissingSignature := "Missing signature"
  const InvalidSignatureOrEvent := "Invalid signature or event"
  const InvalidFormat := "Invalid webhook format"

  /** The subscription names a customer (a truthy id or a customer object) and a plan with
      a truthy id. */
  predicate WellFormedObject(o: Option<SubscriptionObject>) {
    o.Some?
    && o.value.customer.Some? && !(o.value.customer.value.CustomerId? && o.value.customer.value.id == "")
    && o.value.plan.Some? && o.value.plan.value.id != ""
  }

  /** The customer id the handler is given: the string itself, or the object's id. */
  function CustomerIdOf(c: CustomerRef): string {
    match c
    case CustomerId(id) => id
    case CustomerRecord(id) => id
  }

  /** The stateless checks: the header, then Stripe's verification. */
  function Verify(req: StripeRequest, verify: EventVerifier, now: int): Result<StripeEvent, Reply> {
    if req.signatureHeader.None? || req.signatureHeader.value == "" then Failure(Plain(400, MissingSignature))
    else
      match verify(req.body, req.signatureHeader.value, now)
      case None => Failure(Plain(400, InvalidSignatureOrEvent))
      case Some(event) => Success(event)
  }

  /** What a verified event asks for: a response, or the handler call. */
  datatype Route = Answer(reply: Reply) | Call(call: BillingCall)

  function RouteOf(event: StripeEvent): Route {
    if event.eventType == SubscriptionDeleted then
      if !WellFormedObject(event.subscription) then Answer(Plain(400, InvalidFormat))
      else Call(BillingCall(event.created, CustomerIdOf(event.subscription.value.customer.value)))
    else Answer(StatusOnly(204))
  }

  /** One request: the response, the seen-id set afterwards, and the handler call made.
      The handler's outcome for each call is `succeeds`. */
  function Receive(used: Epochs<string>, ttl: int, req: StripeRequest, verify: EventVerifier, now: int,
                   succeeds: BillingCall -> bool): (Reply, Epochs<string>, Option<BillingCall>)
  {
    match Verify(req, verify, now)
    case Failure(reply) => (reply, used, None)
    case Success(event) =>
      var used' := Rotate(used, ttl, now);
      if Found(used', event.id, now) then (StatusOnly(204), used', None)
      else
        match RouteOf(event)
        case Answer(reply) => (reply, used', None)
        case Call(call) =>
          var (reply, used'') := R.Settle(used', ttl, event.id, succeeds(call), now);
          (reply, used'', Some(call))
  }

  /** The handler is called exactly for a verified, not yet seen, well-formed deleted
      subscription, with the event's creation time and its customer's id; the id is
      recorded only when the handler succeeds. Any other verified event gets 204 and is
      not recorded; a malformed deleted subscription gets 400. */
  lemma HandlerCalledExactlyWhenDue(used: Epochs<string>, ttl: int, req: StripeRequest, verify: EventVerifier,
                                    now: int, succeeds: BillingCall -> bool)
    requires ttl > 0 && now >= 0
    ensures var (reply, used', call) := Receive(used, ttl, req, verify, now, succeeds);
      var v := Verify(req, verify, now);
      (v.Failure? ==> call.None? && reply == v.error && used' == used)
      && (v.Success? ==>
            var e := v.value;
            var unseen := !HasAt(used, ttl, e.id, now);
            (call.Some? <==> unseen && e.eventType == SubscriptionDeleted && WellFormedObject(e.subscription))
            && (call.Some? ==> call.value.timestamp == e.created
                               && call.value.billingAccountId == CustomerIdOf(e.subscription.value.customer.value)
                               && (succeeds(call.value) <==> HasAt(used', ttl, e.id, now))
                               && reply == StatusOnly(if succeeds(call.value) then 204 else 500))
            && (unseen && e.eventType != SubscriptionDeleted ==>
                  reply == StatusOnly(204) && !HasAt(used', ttl, e.id, now))
            && (unseen && e.eventType == SubscriptionDeleted && !WellFormedObject(e.subscription) ==>
                  reply == Plain(400, InvalidFormat))
            && (!unseen ==> call.None? && reply == StatusOnly(204)))
  {
    var v := Verify(req, verify, now);
    if v.Success? {
      var e := v.value;
      RotateIdempotent(used, ttl, now);
      InsertThenHas(Rotate(used, ttl, now), ttl, e.id, now);
    }
  }

  /** A missing header is answered before Stripe's verification runs. */
  lemma MissingHeaderFirst(req: StripeRequest, verify: EventVerifier, now: int)
    requires req.signatureHeader.None? || req.signatureHeader.value == ""
    ensures Verify(req, verify, now) == Failure(Plain(400, MissingSignature))
  {
  }

  /** Once an event has been handled successfully at `t`, any later delivery that Stripe's
      verification turns into an event with the same id (re-signed, at a time `u` in
      `[t, t + ttl]`) is acknowledged with 204 and not handled again, whatever other ids
      are looked up or recorded in between. */
  lemma RedeliveryNotReprocessed(used: Epochs<string>, ttl: int, req: StripeRequest, verify: EventVerifier,
                                 t: int, trace: seq<Access<string>>, req2: StripeRequest, u: int,
                                 succeeds: BillingCall -> bool)
    requires ttl > 0 && 0 <= t <= u <= t + ttl && used.lastUpdate <= t
    requires Verify(req, verify, t).Success? && Verify(req2, verify, u).Success?
    requires Verify(req2, verify, u).value.id == Verify(req, verify, t).value.id
    requires Receive(used, ttl, req, verify, t, succeeds).2.Some?
    requires succeeds(Receive(used, ttl, req, verify, t, succeeds).2.value)
    requires Chronological(trace, t, u) && NeverRecords(trace, Verify(req, verify, t).value.id)
    ensures var used1 := Replay(Receive(used, ttl, req, verify, t, succeeds).1, ttl, trace);
      Receive(used1, ttl, req2, verify, u, succeeds) == (StatusOnly(204), Rotate(used1, ttl, u), None)
  {
    var e := Verify(req, verify, t).value;
    KeyLifetime(Rotate(used, ttl, t), ttl, e.id, t, trace, u);
  }

  /** The endpoint, wired to the billing webhook handler. */
  class StripeWebhookReceiver {
    const ttl: int
    const verify: EventVerifier
    const billing: BillingWebhookController
    const usedIds: ExpireSet<string>

    ghost predicate Valid()
      reads this, usedIds
    {
      usedIds.ttl == ttl
    }

    /** `ttl` is the configured Stripe webhook valid interval. */
    constructor (ttl: int, verify: EventVerifier, billing: BillingWebhookController, now: int)
      ensures Valid() && fresh(usedIds) && usedIds.State() == Fresh(now)
      ensures this.ttl == ttl && this.verify == verify && this.billing == billing
    {
      this.ttl := ttl;
      this.verify := verify;
      this.billing := billing;
      usedIds := new ExpireSet(ttl, now);
    }

    method Router(req: StripeRequest, now: int) returns (reply: Reply)
      requires Valid()
      modifies usedIds, billing.rl
      ensures var outcomes := (c: BillingCall) => old(billing.Expected(c.timestamp, c.billingAccountId)).0.Pass?;
        var (r, used', call) := Receive(old(usedIds.State()), ttl, req, verify, now, outcomes);
        reply == r && usedIds.State() == used'
        && billing.rl.calls == old(billing.rl.calls)
             + (if call.Some? then old(billing.Expected(call.value.timestamp, call.value.billingAccountId)).1 else [])
    {
      var verified := Verify(req, verify, now);
      if verified.Failure? {
        return verified.error;
      }
      var event := verified.value;
      var seen := usedIds.Has(event.id, now);
      if seen {
        return StatusOnly(204);
      }
      if event.eventType == SubscriptionDeleted {
        if !WellFormedObject(event.subscription) {
          return Plain(400, InvalidFormat);
        }
        var customer := CustomerIdOf(event.subscription.value.customer.value);
        var outcome := billing.HandleAccountSubscriptionCancel(event.created, customer);
        if outcome.Pass? {
          usedIds.Insert(event.id, now);
          reply := StatusOnly(204);
        } else {
          reply := StatusOnly(500);
        }
      } else {
        reply := StatusOnly(204);
      }
    }
  }
}
