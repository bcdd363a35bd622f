/** The older copy of the Router Limits webhook endpoint (the `RouterLimitsWebhookController`
    under `controllers/http`). It runs the same chain of checks and the same seen-id
    bookkeeping, but hands events to a processor whose implementation is not part of this
    model: the processor's outcome for each call is a given function, and the calls made
    are kept in a ghost log. */
module LegacyRouterLimitsWebhookReceiving {
  import opened Wrappers
  import opened Http
  import opened Expiry
  import opened RouterLimitsWebhooks
  import opened Plans
  import C = RouterLimitsWebhookControl
  import opened RouterLimitsWebhookReceiving

  /** One request: the response, the seen-id set afterwards, and the processor call made,
      if any. */
  function LegacyReceive(used: Epochs<string>, req: Request, prim: Primitives, validInterval: int, now: int,
                         processor: C.ControllerCall -> Outcome<string>)
    : (Reply, Epochs<string>, Option<C.ControllerCall>)
  {
    match GateOf(used, req, prim, validInterval, now)
    case (Respond(reply), used') => (reply, used', None)
    case (Deliver(eventId, call), used') =>
      var (reply, used'') := Settle(used', validInterval, eventId, processor(call).Pass?, now);
      (reply, used'', Some(call))
  }

  /** Wired to a processor that behaves as the reconciliation controller does in state
      `s`, the older endpoint answers every request exactly as the current one does and
      leaves the seen-id set in the same state. */
  lemma AgreesWithCurrentReceiver(used: Epochs<string>, s: C.Reconciliation, plans: map<string, Plan>,
                                  req: Request, prim: Primitives, validInterval: int, now: int)
    ensures var (reply, used', _) := LegacyReceive(used, req, prim, validInterval, now, c => C.Handle(s, plans, c).0);
      var (reply2, used2, _) := Receive(used, s, plans, req, prim, validInterval, now);
      reply == reply2 && used' == used2
  {
  }

  /** The processor is called at most once, never for a rejected request or an id already
      seen, and otherwise with the call chosen by the webhook's type; the id is recorded
      (204) exactly when the processor succeeds, and a failure is answered with 500. */
  lemma ProcessorCalledOncePerNewEvent(used: Epochs<string>, req: Request, prim: Primitives, validInterval: int,
                                       now: int, processor: C.ControllerCall -> Outcome<string>)
    requires validInterval > 0 && now >= 0
    ensures var (reply, used', call) := LegacyReceive(used, req, prim, validInterval, now, processor);
      var r := Screen(req, prim, validInterval, now);
      (r.Failure? ==> call.None? && reply == r.error && used' == used)
      && (r.Success? && HasAt(used, validInterval, r.value.eventId, now) ==>
            call.None? && reply == StatusOnly(204))
      && (r.Success? && !HasAt(used, validInterval, r.value.eventId, now) ==>
            call == Some(Dispatch(r.value))
            && (processor(call.value).Pass? ==>
                  reply == StatusOnly(204) && HasAt(used', validInterval, r.value.eventId, now))
            && (processor(call.value).Fail? ==>
                  reply == StatusOnly(500) && !HasAt(used', validInterval, r.value.eventId, now)))
  {
    var r := Screen(req, prim, validInterval, now);
    if r.Success? && !HasAt(used, validInterval, r.value.eventId, now) {
      RotateIdempotent(used, validInterval, now);
      InsertThenHas(Rotate(used, validInterval, now), validInterval, r.value.eventId, now);
    }
  }

  /** The older endpoint object. */
  class RouterLimitsWebhookController {
    const validInterval: int
    const prim: Primitives
    const processor: C.ControllerCall -> Outcome<string>
    const usedIds: ExpireSet<string>
    ghost var processed: seq<C.ControllerCall>

    ghost predicate Valid()
      reads this, usedIds
    {
      usedIds.ttl == validInterval
    }

    constructor (validInterval: int, prim: Primitives, processor: C.ControllerCall -> Outcome<string>, now: int)
      ensures Valid() && fresh(usedIds) && usedIds.State() == Fresh(now) && processed == []
      ensures this.validInterval == validInterval && this.prim == prim && this.processor == processor
    {
      this.validInterval := validInterval;
      this.prim := prim;
      this.processor := processor;
      usedIds := new ExpireSet(validInterval, now);
      processed := [];
    }

    method Router(req: Request, now: int) returns (reply: Reply)
      requires Valid()
      modifies this, usedIds
      ensures var (r, used', call) := LegacyReceive(old(usedIds.State()), req, prim, validInterval, now, processor);
        reply == r && usedIds.State() == used'
        && processed == old(processed) + (if call.Some? then [call.value] else [])
    {
      var screened := Screen(req, prim, validInterval, now);
      if screened.Failure? {
        return screened.error;
      }
      var webhook := screened.value;
      var seen := usedIds.Has(webhook.eventId, now);
      if seen {
        return StatusOnly(204);
      }
      var call: C.ControllerCall;
      match webhook.eventType {
        case AccountCreated =>
          call := C.AccountCreatedCall(webhook.eventTimestamp, webhook.data.accountId,
            webhook.data.firstName, webhook.data.lastName, webhook.data.email);
        case AccountSubscribed =>
          call := C.SubscriptionChangeCall(webhook.eventTimestamp, webhook.data.accountId, webhook.data.plan.id);
        case AccountCanceled =>
          call := C.SubscriptionCancelCall(webhook.eventTimestamp, webhook.data.accountId);
      }
      var outcome := processor(call);
      processed := processed + [call];
      if outcome.Pass? {
        usedIds.Insert(webhook.eventId, now);
        reply := StatusOnly(204);
      } else {
        reply := StatusOnly(500);
      }
    }
  }
}
