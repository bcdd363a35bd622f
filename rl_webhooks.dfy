/** The Router Limits webhook envelope and its three payloads, decoded from the untyped
    object that `JSON.parse` produced. Each decoder is a guard followed by a constructor;
    a failed guard is the thrown "Invalid object" error, modelled as `None`. */
module RouterLimitsWebhooks {
  import opened Wrappers
  import opened JsonValues

  /** The `WebhookType` enumeration. */
  datatype WebhookType = AccountCreated | AccountSubscribed | AccountCanceled

  /** The string value of each enumeration member. */
  function TypeName(t: WebhookType): string {
    match t
    case AccountCreated => "ACCOUNT_CREATED"
    case AccountSubscribed => "ACCOUNT_SUBSCRIBED"
    case AccountCanceled => "ACCOUNT_CANCELED"
  }

  /** The search of the three members for the one equal to `s`. */
  function TypeFromName(s: string): Option<WebhookType> {
    if s == TypeName(AccountCreated) then Some(AccountCreated)
    else if s == TypeName(AccountSubscribed) then Some(AccountSubscribed)
    else if s == TypeName(AccountCanceled) then Some(AccountCanceled)
    else None
  }

  /** The enumeration and its string values are in one-to-one correspondence: every
      member is found from its name, and a name is found only if it is a member's. */
  lemma TypeNameRoundTrip(t: WebhookType, s: string)
    ensures TypeFromName(TypeName(t)) == Some(t)
    ensures TypeFromName(s) == Some(t) <==> s == TypeName(t)
  {
  }

  datatype RLPlan = RLPlan(id: string, name: string)

  /** The payloads. The account-created names are whatever truthy values the sender put
      there: the decoder checks truthiness, not type. */
  datatype WebhookData =
    | Created(accountId: string, firstName: Json, lastName: Json, email: Json)
    | Subscribed(accountId: string, plan: RLPlan)
    | Canceled(accountId: string)

  datatype Webhook = Webhook(attempt: int, attemptTimestamp: int, data: WebhookData,
                             eventId: string, eventTimestamp: int, eventType: WebhookType)

  function StringAt(obj: Json, key: string): string
    requires IsStringProp(obj, key)
  {
    Prop(obj, key).value.s
  }

  function NumberAt(obj: Json, key: string): int
    requires IsNumberProp(obj, key)
  {
    Prop(obj, key).value.n
  }

  /** `RLAccountCreatedWebhookData.fromObj`. */
  function CreatedFromObj(obj: Json): Option<WebhookData> {
    if IsStringProp(obj, "id") && IsObjectProp(obj, "user") then
      var user := Prop(obj, "user").value;
      if Defined(Prop(user, "firstName")) && Defined(Prop(user, "lastName")) && Defined(Prop(user, "email")) then
        Some(Created(StringAt(obj, "id"), Prop(user, "firstName").value,
                     Prop(user, "lastName").value, Prop(user, "email").value))
      else None
    else None
  }

  /** `RLAccountCanceledWebhookData.fromObj`. */
  function CanceledFromObj(obj: Json): Option<WebhookData> {
    if IsStringProp(obj, "accountId") then Some(Canceled(StringAt(obj, "accountId"))) else None
  }

  /** `RLPlan.fromObj`. */
  function PlanFromObj(obj: Json): Option<RLPlan> {
    if IsStringProp(obj, "id") && IsStringProp(obj, "name") then
      Some(RLPlan(StringAt(obj, "id"), StringAt(obj, "name")))
    else None
  }

  /** `RLAccountSubscribedWebhookData.fromObj`: the plan decoder runs only once the
      account id and a truthy plan are present, and its failure is the payload's. */
  function SubscribedFromObj(obj: Json): Option<WebhookData> {
    if IsStringProp(obj, "accountId") && Defined(Prop(obj, "plan")) then
      match PlanFromObj(Prop(obj, "plan").value)
      case Some(plan) => Some(Subscribed(StringAt(obj, "accountId"), plan))
      case None => None
    else None
  }

  /** The payload decoder chosen by the event type. */
  function DataFromObj(t: WebhookType, obj: Json): Option<WebhookData> {
    match t
    case AccountCreated => CreatedFromObj(obj)
    case AccountSubscribed => SubscribedFromObj(obj)
    case AccountCanceled => CanceledFromObj(obj)
  }

  /** The envelope's own field checks. */
  predicate EnvelopeShape(obj: Json) {
    IsNumberProp(obj, "attempt")
    && IsNumberProp(obj, "attemptTimestamp")
    && Defined(Prop(obj, "data"))
    && IsStringProp(obj, "eventId")
    && IsNumberProp(obj, "eventTimestamp")
    && IsStringProp(obj, "eventType")
  }

  /** `Webhook.fromObj`: the envelope checks, then the event type, then the payload. */
  function WebhookFromObj(obj: Json): Option<Webhook> {
    if !EnvelopeShape(obj) then None
    else
      match TypeFromName(StringAt(obj, "eventType"))
      case None => None
      case Some(t) =>
        match DataFromObj(t, Prop(obj, "data").value)
        case None => None
        case Some(data) =>
          Some(Webhook(NumberAt(obj, "attempt"), NumberAt(obj, "attemptTimestamp"), data,
                       StringAt(obj, "eventId"), NumberAt(obj, "eventTimestamp"), t))
  }

  /** The payload variant that belongs to each event type. */
  predicate Matches(t: WebhookType, data: WebhookData) {
    match t
    case AccountCreated => data.Created?
    case AccountSubscribed => data.Subscribed?
    case AccountCanceled => data.Canceled?
  }

  /** A webhook the decoder can produce: the payload matches the type, and the names of
      a created account are truthy. */
  predicate WellFormed(w: Webhook) {
    Matches(w.eventType, w.data)
    && (w.data.Created? ==> Truthy(w.data.firstName) && Truthy(w.data.lastName) && Truthy(w.data.email))
  }

  /** The object a sender writes for a payload. */
  function DataToObj(d: WebhookData): Json {
    match d
    case Created(id, first, last, email) =>
      JObject(map["id" := JString(id),
                  "user" := JObject(map["firstName" := first, "lastName" := last, "email" := email])])
    case Subscribed(id, plan) =>
      JObject(map["accountId" := JString(id),
                  "plan" := JObject(map["id" := JString(plan.id), "name" := JString(plan.name)])])
    case Canceled(id) =>
      JObject(map["accountId" := JString(id)])
  }

  /** The object a sender writes for a webhook. */
  function WebhookToObj(w: Webhook): Json {
    JObject(map["attempt" := JNumber(w.attempt),
                "attemptTimestamp" := JNumber(w.attemptTimestamp),
                "data" := DataToObj(w.data),
                "eventId" := JString(w.eventId),
                "eventTimestamp" := JNumber(w.eventTimestamp),
                "eventType" := JString(TypeName(w.eventType))])
  }

  /** Every payload decodes back from the object written for it. */
  lemma DataRoundTrip(d: WebhookData)
    requires d.Created? ==> Truthy(d.firstName) && Truthy(d.lastName) && Truthy(d.email)
    ensures DataFromObj(if d.Created? then AccountCreated else if d.Subscribed? then AccountSubscribed
                        else AccountCanceled, DataToObj(d)) == Some(d)
  {
    match d
    case Created(id, first, last, email) =>
      var user := JObject(map["firstName" := first, "lastName" := last, "email" := email]);
      assert Prop(DataToObj(d), "user") == Some(user);
    case Subscribed(id, plan) =>
      var p := JObject(map["id" := JString(plan.id), "name" := JString(plan.name)]);
      assert Prop(DataToObj(d), "plan") == Some(p);
      assert PlanFromObj(p) == Some(plan);
    case Canceled(id) =>
  }

  /** Every well-formed webhook decodes back, field for field, from the object written
      for it. */
  lemma WebhookRoundTrip(w: Webhook)
    requires WellFormed(w)
    ensures WebhookFromObj(WebhookToObj(w)) == Some(w)
  {
    var obj := WebhookToObj(w);
    assert EnvelopeShape(obj);
    TypeNameRoundTrip(w.eventType, TypeName(w.eventType));
    DataRoundTrip(w.data);
  }

  /** Whatever the decoder accepts is well formed, and each field of the result is the
      input's field of the same name; the payload is what the decoder for the named type
      made of the input's `data`. */
  lemma WebhookFromObjSound(obj: Json, w: Webhook)
    requires WebhookFromObj(obj) == Some(w)
    ensures WellFormed(w)
    ensures Prop(obj, "attempt") == Some(JNumber(w.attempt))
    ensures Prop(obj, "attemptTimestamp") == Some(JNumber(w.attemptTimestamp))
    ensures Prop(obj, "eventId") == Some(JString(w.eventId))
    ensures Prop(obj, "eventTimestamp") == Some(JNumber(w.eventTimestamp))
    ensures Prop(obj, "eventType") == Some(JString(TypeName(w.eventType)))
    ensures Prop(obj, "data").Some? && DataFromObj(w.eventType, Prop(obj, "data").value) == Some(w.data)
  {
    var t := TypeFromName(StringAt(obj, "eventType")).value;
    TypeNameRoundTrip(t, StringAt(obj, "eventType"));
    var data := Prop(obj, "data").value;
    match t
    case AccountCreated =>
      assert CreatedFromObj(data) == Some(w.data);
    case AccountSubscribed =>
      assert SubscribedFromObj(data) == Some(w.data);
    case AccountCanceled =>
      assert CanceledFromObj(data) == Some(w.data);
  }

  /** The decoder rejects an input exactly when one of the envelope checks fails, the
      event type is none of the three, or the payload fails the decoder of that type. */
  lemma WebhookFromObjRejects(obj: Json)
    ensures WebhookFromObj(obj).None? <==>
      !EnvelopeShape(obj)
      || TypeFromName(StringAt(obj, "eventType")).None?
      || DataFromObj(TypeFromName(StringAt(obj, "eventType")).value, Prop(obj, "data").value).None?
  {
  }

  /** The payload decoders accept exactly the shapes they check for and carry the checked
      values into the result. */
  lemma CreatedFromObjExact(obj: Json)
    ensures CreatedFromObj(obj).Some? <==>
      IsStringProp(obj, "id") && IsObjectProp(obj, "user")
      && Defined(Prop(Prop(obj, "user").value, "firstName"))
      && Defined(Prop(Prop(obj, "user").value, "lastName"))
      && Defined(Prop(Prop(obj, "user").value, "email"))
    ensures CreatedFromObj(obj).Some? ==>
      var d := CreatedFromObj(obj).value;
      var user := Prop(obj, "user").value;
      d.Created? && Prop(obj, "id") == Some(JString(d.accountId))
      && Prop(user, "firstName") == Some(d.firstName) && Truthy(d.firstName)
      && Prop(user, "lastName") == Some(d.lastName) && Truthy(d.lastName)
      && Prop(user, "email") == Some(d.email) && Truthy(d.email)
  {
  }

  lemma CanceledFromObjExact(obj: Json)
    ensures CanceledFromObj(obj).Some? <==> IsStringProp(obj, "accountId")
    ensures CanceledFromObj(obj).Some? ==>
      Prop(obj, "accountId") == Some(JString(CanceledFromObj(obj).value.accountId))
  {
  }

  lemma SubscribedFromObjExact(obj: Json)
    ensures SubscribedFromObj(obj).Some? <==>
      IsStringProp(obj, "accountId") && Defined(Prop(obj, "plan"))
      && IsStringProp(Prop(obj, "plan").value, "id") && IsStringProp(Prop(obj, "plan").value, "name")
    ensures SubscribedFromObj(obj).Some? ==>
      var d := SubscribedFromObj(obj).value;
      var plan := Prop(obj, "plan").value;
      d.Subscribed? && Prop(obj, "accountId") == Some(JString(d.accountId))
      && Prop(plan, "id") == Some(JString(d.plan.id)) && Prop(plan, "name") == Some(JString(d.plan.name))
  {
  }

  /** The property names the envelope decoder reads. */
  const EnvelopeKeys: set<string> :=
    {"attempt", "attemptTimestamp", "data", "eventId", "eventTimestamp", "eventType"}

  /** The property names the payload decoders read. */
  const PayloadKeys: set<string> := {"id", "user", "accountId", "plan"}

  /** Properties the decoder does not read never change its outcome. */
  lemma ExtraEnvelopeFieldsIgnored(fields: map<string, Json>, key: string, v: Json)
    requires key !in EnvelopeKeys
    ensures WebhookFromObj(JObject(fields[key := v])) == WebhookFromObj(JObject(fields))
  {
    var a, b := JObject(fields[key := v]), JObject(fields);
    assert forall k :: k in EnvelopeKeys ==> Prop(a, k) == Prop(b, k);
  }

  lemma ExtraPayloadFieldsIgnored(t: WebhookType, fields: map<string, Json>, key: string, v: Json)
    requires key !in PayloadKeys
    ensures DataFromObj(t, JObject(fields[key := v])) == DataFromObj(t, JObject(fields))
  {
    var a, b := JObject(fields[key := v]), JObject(fields);
    assert forall k :: k in PayloadKeys ==> Prop(a, k) == Prop(b, k);
  }
}
