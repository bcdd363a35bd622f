/** The older copy of the Stripe webhook endpoint (the `StripeWebhookController` under
    `controllers/http`): the same header check, verification and event filter, with no
    record of event ids. It keeps no state; the handler it calls (whose implementation is
    not part of this model) is represented by its outcome for each call. */
module LegacyStripeWebhookReceiving {
  import opened Wrappers
  import opened Http
  import opened Expiry
  import opened StripeWebhookReceiving

  /** One request: the response and the handler call made, if any. */
  function LegacyReceive(req: StripeRequest, verify: EventVerifier, now: int, succeeds: BillingCall -> bool)
    : (Reply, Option<BillingCall>)
  {
    match Verify(req, verify, now)
    case Failure(reply) => (reply, None)
    case Success(event) =>
      match RouteOf(event)
      case Answer(reply) => (reply, None)
      case Call(call) => (StatusOnly(if succeeds(call) then 204 else 500), Some(call))
  }

  /** Without a record of event ids, every delivery of a verified, well-formed deleted
      subscription calls the handler, however often it is repeated; any other verified
      event is acknowledged with 204 and no call. */
  lemma EveryDeliveryHandled(req: StripeRequest, verify: EventVerifier, now: int, succeeds: BillingCall -> bool)
    requires Verify(req, verify, now).Success?
    ensures var e := Verify(req, verify, now).value;
      var (reply, call) := LegacyReceive(req, verify, now, succeeds);
      (call.Some? <==> e.eventType == SubscriptionDeleted && WellFormedObject(e.subscription))
      && (call.Some? ==> call.value == BillingCall(e.created, CustomerIdOf(e.subscription.value.customer.value))
                         && reply.status == (if succeeds(call.value) then 204 else 500))
      && (e.eventType != SubscriptionDeleted ==> reply == StatusOnly(204))
  {
  }

  /** For an event the current endpoint has not seen, both endpoints give the same
      response and make the same call; they differ only on events already handled, which
      the older endpoint handles again. */
  lemma AgreesOnUnseenEvents(used: Epochs<string>, ttl: int, req: StripeRequest, verify: EventVerifier, now: int,
                             succeeds: BillingCall -> bool)
    requires Verify(req, verify, now).Failure? || !HasAt(used, ttl, Verify(req, verify, now).value.id, now)
    ensures var (reply, call) := LegacyReceive(req, verify, now, succeeds);
      var (reply2, _, call2) := Receive(used, ttl, req, verify, now, succeeds);
      reply == reply2 && call == call2
  {
  }
}
