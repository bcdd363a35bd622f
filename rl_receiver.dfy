/** The inbound Router Limits webhook endpoint (`RouterLimitsWebhookReceiver`): a fixed
    chain of checks (signature, JSON, envelope, attempt time, duplicate event id), then one
    handler call; the event id is recorded only once the handler has succeeded. The
    keyed hash (HMAC-SHA256 under the shared secret, as lower-case hex) and `JSON.parse`
    are given functions. */
module RouterLimitsWebhookReceiving {
  import opened Wrappers
  import opened JsonValues
  import opened Text
  import opened Http
  import opened Expiry
  import opened RouterLimitsWebhooks
  import opened Plans
  import opened RouterLimitsWebhookControl

  /** What the endpoint reads from a request: the `x-rl-signatures` header, if sent, and
      the raw body. */
  datatype Request = Request(signatureHeader: Option<string>, body: string)

  /** The foreign functions: the expected signature of a body, and `JSON.parse`. */
  datatype Primitives = Primitives(hmacHex: string -> string, parseJson: string -> Option<Json>)

  const MissingSignature := "Missing signature"
  const InvalidSignature := "Invalid signature"
  const InvalidJson := "Invalid JSON"
  const InvalidFormat := "Invalid webhook format"
  const InvalidAttemptTimestamp := "Invalid attemptTimestamp"

  /** The header is sent and non-empty (a truthy string). */
  predicate HeaderPresent(req: Request) {
    req.signatureHeader.Some? && req.signatureHeader.value != ""
  }

  /** Some comma-separated element of the header is exactly the expected signature. */
  predicate SignatureValid(req: Request, prim: Primitives)
    requires HeaderPresent(req)
  {
    prim.hmacHex(req.body) in SplitOn(req.signatureHeader.value, ',')
  }

  /** The attempt was made within the valid interval of `now`, in either direction. */
  predicate Timely(w: Webhook, validInterval: int, now: int) {
    Abs(now - w.attemptTimestamp) <= validInterval
  }

  /** The stateless checks, in order; the first that fails decides the response. */
  function Screen(req: Request, prim: Primitives, validInterval: int, now: int): (r: Result<Webhook, Reply>)
    ensures r.Success? ==> WellFormed(r.value)
  {
    if !HeaderPresent(req) then Failure(Plain(400, MissingSignature))
    else if !SignatureValid(req, prim) then Failure(Plain(400, InvalidSignature))
    else
      match prim.parseJson(req.body)
      case None => Failure(Plain(400, InvalidJson))
      case Some(obj) =>
        match WebhookFromObj(obj)
        case None => Failure(Plain(400, InvalidFormat))
        case Some(w) =>
          WebhookFromObjSound(obj, w);
          if !Timely(w, validInterval, now) then Failure(Plain(400, InvalidAttemptTimestamp))
          else Success(w)
  }

  /** The handler call for a decoded webhook, chosen by its type; every call carries the
      event time, not the attempt time. */
  function Dispatch(w: Webhook): ControllerCall
    requires Matches(w.eventType, w.data)
  {
    match w.eventType
    case AccountCreated =>
      AccountCreatedCall(w.eventTimestamp, w.data.accountId, w.data.firstName, w.data.lastName, w.data.email)
    case AccountSubscribed =>
      SubscriptionChangeCall(w.eventTimestamp, w.data.accountId, w.data.plan.id)
    case AccountCanceled =>
      SubscriptionCancelCall(w.eventTimestamp, w.data.accountId)
  }

  /** What happens before the handler: a response, or the handler call to make for an
      event id not seen within the interval; and the seen-id set after its lookup. */
  datatype Gate = Respond(reply: Reply) | Deliver(eventId: string, call: ControllerCall)

  function GateOf(used: Epochs<string>, req: Request, prim: Primitives, validInterval: int, now: int)
    : (Gate, Epochs<string>)
  {
    match Screen(req, prim, validInterval, now)
    case Failure(reply) => (Respond(reply), used)
    case Success(w) =>
      if HasAt(used, validInterval, w.eventId, now) then (Respond(StatusOnly(204)), Rotate(used, validInterval, now))
      else (Deliver(w.eventId, Dispatch(w)), Rotate(used, validInterval, now))
  }

  /** After the handler: on success record the id and answer 204, on failure answer 500. */
  function Settle(used: Epochs<string>, validInterval: int, eventId: string, succeeded: bool, now: int)
    : (Reply, Epochs<string>)
  {
    if succeeded then (StatusOnly(204), Add(used, validInterval, eventId, now)) else (StatusOnly(500), used)
  }

  /** One request, end to end, against the reconciliation controller. */
  function Receive(used: Epochs<string>, s: Reconciliation, plans: map<string, Plan>, req: Request,
                   prim: Primitives, validInterval: int, now: int): (Reply, Epochs<string>, Reconciliation)
  {
    match GateOf(used, req, prim, validInterval, now)
    case (Respond(reply), used') => (reply, used', s)
    case (Deliver(eventId, call), used') =>
      var (outcome, s') := Handle(s, plans, call);
      var (reply, used'') := Settle(used', validInterval, eventId, outcome.Pass?, now);
      (reply, used'', s')
  }

  /** The checks run in a fixed order and the first failure decides the response: each
      rejection happens exactly when every earlier check passed and its own failed, and a
      webhook goes through exactly when all pass. */
  lemma ChecksInOrder(req: Request, prim: Primitives, validInterval: int, now: int)
    ensures var r := Screen(req, prim, validInterval, now);
      var parsed := prim.parseJson(req.body);
      var decoded := if parsed.Some? then WebhookFromObj(parsed.value) else None;
      (r == Failure(Plain(400, MissingSignature)) <==> !HeaderPresent(req))
      && (r == Failure(Plain(400, InvalidSignature)) <==> HeaderPresent(req) && !SignatureValid(req, prim))
      && (r == Failure(Plain(400, InvalidJson)) <==>
            HeaderPresent(req) && SignatureValid(req, prim) && parsed.None?)
      && (r == Failure(Plain(400, InvalidFormat)) <==>
            HeaderPresent(req) && SignatureValid(req, prim) && parsed.Some? && decoded.None?)
      && (r == Failure(Plain(400, InvalidAttemptTimestamp)) <==>
            HeaderPresent(req) && SignatureValid(req, prim) && decoded.Some?
            && !Timely(decoded.value, validInterval, now))
      && (r.Success? <==>
            HeaderPresent(req) && SignatureValid(req, prim) && decoded.Some?
            && Timely(decoded.value, validInterval, now))
      && (r.Success? ==> Some(r.value) == decoded)
  {
  }

  /** For a header that lists signatures separated by commas (none containing a comma),
      the signature check passes exactly when the expected one is among them. */
  lemma SignatureListed(prim: Primitives, signatures: seq<string>, body: string)
    requires |signatures| >= 1 && Join(signatures, ',') != ""
    requires forall i :: 0 <= i < |signatures| ==> ',' !in signatures[i]
    ensures var req := Request(Some(Join(signatures, ',')), body);
      HeaderPresent(req) && (SignatureValid(req, prim) <==> prim.hmacHex(body) in signatures)
  {
    SplitJoin(signatures, ',');
  }

  /** A rejected request changes nothing: no handler runs, the seen-id set is not even
      consulted. */
  lemma RejectionChangesNothing(used: Epochs<string>, s: Reconciliation, plans: map<string, Plan>, req: Request,
                                prim: Primitives, validInterval: int, now: int)
    requires Screen(req, prim, validInterval, now).Failure?
    ensures Receive(used, s, plans, req, prim, validInterval, now)
         == (Screen(req, prim, validInterval, now).error, used, s)
  {
  }

  /** An event id already seen gets 204 and no handler call: the reconciliation state is
      unchanged and the id is not inserted again. */
  lemma DuplicateAcknowledged(used: Epochs<string>, s: Reconciliation, plans: map<string, Plan>, req: Request,
                              prim: Primitives, validInterval: int, now: int)
    requires Screen(req, prim, validInterval, now).Success?
    requires HasAt(used, validInterval, Screen(req, prim, validInterval, now).value.eventId, now)
    ensures Receive(used, s, plans, req, prim, validInterval, now)
         == (StatusOnly(204), Rotate(used, validInterval, now), s)
  {
  }

  /** A new event is handed to its handler; the id is recorded (and 204 sent) only if the
      handler succeeds. On failure the answer is 500 and the id stays unseen, so a
      redelivery at that time is handled again. */
  lemma RecordedOnlyOnSuccess(used: Epochs<string>, s: Reconciliation, plans: map<string, Plan>, req: Request,
                              prim: Primitives, validInterval: int, now: int)
    requires validInterval >= 0
    requires Screen(req, prim, validInterval, now).Success?
    requires !HasAt(used, validInterval, Screen(req, prim, validInterval, now).value.eventId, now)
    ensures var w := Screen(req, prim, validInterval, now).value;
      var (outcome, s1) := Handle(s, plans, Dispatch(w));
      var (reply, used', s') := Receive(used, s, plans, req, prim, validInterval, now);
      s' == s1
      && (outcome.Pass? ==> reply == StatusOnly(204)
                            && used' == Add(Rotate(used, validInterval, now), validInterval, w.eventId, now))
      && (outcome.Fail? ==> reply == StatusOnly(500) && used' == Rotate(used, validInterval, now)
                            && !HasAt(used', validInterval, w.eventId, now))
  {
    var w := Screen(req, prim, validInterval, now).value;
    RotateIdempotent(used, validInterval, now);
  }

  /** Redelivery protection: once an event has been handled successfully at time `t`, any
      later delivery of the same event id at a time `u` in `[t, t + validInterval]` that
      passes the checks (a new attempt, with its own body and signature) is acknowledged
      with 204 and not handled again, whatever other ids are looked up or recorded in
      between and whatever the directories have become. */
  lemma RedeliveryNotReprocessed(used: Epochs<string>, s: Reconciliation, plans: map<string, Plan>, req: Request,
                                 prim: Primitives, validInterval: int, t: int,
                                 trace: seq<Access<string>>, s2: Reconciliation, req2: Request, u: int)
    requires validInterval > 0 && 0 <= t <= u <= t + validInterval && used.lastUpdate <= t
    requires Screen(req, prim, validInterval, t).Success? && Screen(req2, prim, validInterval, u).Success?
    requires Screen(req2, prim, validInterval, u).value.eventId == Screen(req, prim, validInterval, t).value.eventId
    requires !HasAt(used, validInterval, Screen(req, prim, validInterval, t).value.eventId, t)
    requires Handle(s, plans, Dispatch(Screen(req, prim, validInterval, t).value)).0.Pass?
    requires Chronological(trace, t, u) && NeverRecords(trace, Screen(req, prim, validInterval, t).value.eventId)
    ensures var used1 := Replay(Receive(used, s, plans, req, prim, validInterval, t).1, validInterval, trace);
      Receive(used1, s2, plans, req2, prim, validInterval, u)
      == (StatusOnly(204), Rotate(used1, validInterval, u), s2)
  {
    var w := Screen(req, prim, validInterval, t).value;
    var r := Rotate(used, validInterval, t);
    KeyLifetime(r, validInterval, w.eventId, t, trace, u);
  }

  /** The limit of redelivery protection: the seen-id set keeps an id for `validInterval`,
      the same span as the time window, but the window is measured from each attempt's own
      timestamp. So a redelivery of an event handled at `t` that arrives after
      `t + validInterval` with a fresh attempt timestamp passes the checks, finds the id
      gone and is handed to its handler a second time. */
  lemma LateRedeliveryReprocessed(used: Epochs<string>, s: Reconciliation, plans: map<string, Plan>, req: Request,
                                  prim: Primitives, validInterval: int, t: int,
                                  trace: seq<Access<string>>, s2: Reconciliation, req2: Request, u: int)
    requires validInterval > 0 && 0 <= t && t + validInterval < u && used.lastUpdate <= t
    requires Screen(req, prim, validInterval, t).Success? && Screen(req2, prim, validInterval, u).Success?
    requires Screen(req2, prim, validInterval, u).value.eventId == Screen(req, prim, validInterval, t).value.eventId
    requires !HasAt(used, validInterval, Screen(req, prim, validInterval, t).value.eventId, t)
    requires Handle(s, plans, Dispatch(Screen(req, prim, validInterval, t).value)).0.Pass?
    requires Chronological(trace, t, u) && NeverRecords(trace, Screen(req, prim, validInterval, t).value.eventId)
    ensures var used1 := Replay(Receive(used, s, plans, req, prim, validInterval, t).1, validInterval, trace);
      var (outcome, s3) := Handle(s2, plans, Dispatch(Screen(req2, prim, validInterval, u).value));
      var (reply, _, s') := Receive(used1, s2, plans, req2, prim, validInterval, u);
      s' == s3 && reply == (if outcome.Pass? then StatusOnly(204) else StatusOnly(500))
  {
    var w := Screen(req, prim, validInterval, t).value;
    var r := Rotate(used, validInterval, t);
    KeyLifetime(r, validInterval, w.eventId, t, trace, u);
    var used1 := Replay(Receive(used, s, plans, req, prim, validInterval, t).1, validInterval, trace);
    RecordedOnlyOnSuccess(used1, s2, plans, req2, prim, validInterval, u);
  }

  /** The handler call matches the event: same type, the event time, and the payload's
      account, plan and names. */
  lemma DispatchMatchesEvent(w: Webhook)
    requires WellFormed(w)
    ensures var c := Dispatch(w);
      c.timestamp == w.eventTimestamp && c.accountId == w.data.accountId
      && (c.AccountCreatedCall? <==> w.eventType == AccountCreated)
      && (c.SubscriptionChangeCall? <==> w.eventType == AccountSubscribed)
      && (c.SubscriptionCancelCall? <==> w.eventType == AccountCanceled)
      && (c.SubscriptionChangeCall? ==> c.planId == w.data.plan.id)
      && (c.AccountCreatedCall? ==> c.firstName == w.data.firstName && c.lastName == w.data.lastName
                                    && c.email == w.data.email)
  {
  }

  /** The endpoint, wired to the reconciliation controller. The seen-id set keeps ids for
      the webhook valid interval. */
  class RouterLimitsWebhookReceiver {
    const validInterval: int
    const prim: Primitives
    const controller: RouterLimitsWebhookController
    const usedIds: ExpireSet<string>

    ghost predicate Valid()
      reads this, usedIds
    {
      usedIds.ttl == validInterval
    }

    constructor (validInterval: int, prim: Primitives, controller: RouterLimitsWebhookController, now: int)
      ensures Valid() && fresh(usedIds) && usedIds.State() == Fresh(now)
      ensures this.validInterval == validInterval && this.prim == prim && this.controller == controller
    {
      this.validInterval := validInterval;
      this.prim := prim;
      this.controller := controller;
      usedIds := new ExpireSet(validInterval, now);
    }

    method Router(req: Request, now: int) returns (reply: Reply)
      requires Valid()
      modifies usedIds, controller.accounts, controller.billing
      ensures (reply, usedIds.State(), controller.State())
           == Receive(old(usedIds.State()), old(controller.State()), controller.plans.byId, req, prim, validInterval, now)
    {
      var screened := Screen(req, prim, validInterval, now);
      if screened.Failure? {
        return screened.error;
      }
      var webhook := screened.value;
      var seen := usedIds.Has(webhook.eventId, now);
      if seen {
        return StatusOnly(204);
      }
      var outcome: Outcome<string>;
      match webhook.eventType {
        case AccountCreated =>
          outcome := controller.HandleAccountCreated(webhook.eventTimestamp, webhook.data.accountId,
            webhook.data.firstName, webhook.data.lastName, webhook.data.email);
        case AccountSubscribed =>
          outcome := controller.HandleAccountSubscriptionChange(webhook.eventTimestamp, webhook.data.accountId,
            webhook.data.plan.id);
        case AccountCanceled =>
          outcome := controller.HandleAccountSubscriptionCancel(webhook.eventTimestamp, webhook.data.accountId);
      }
      if outcome.Pass? {
        usedIds.Insert(webhook.eventId, now);
        reply := StatusOnly(204);
      } else {
        reply := StatusOnly(500);
      }
    }
  }
}
