/** `AccountsReceiver`: the HTTP front of the account API. It validates request bodies
    against the JSON schemas it declares, checks that the authenticated account (set by
    the API-key middleware) is the one named in the path, and forwards to the accounts
    controller, whose results are given here as values. */
module AccountsReceiving {
  import opened Wrappers
  import opened JsonValues
  import opened Http
  import opened Accounts

  /** What a handler does: the reply it sends (`None` when the controller's promise
      rejects or the handler throws, so that nothing is sent) and whether the controller
      was called. */
  datatype Handled = Handled(reply: Option<Reply>, called: bool)

  function Sends(r: Reply, called: bool): Handled {
    Handled(Some(r), called)
  }

  /** An optional non-empty string property: absent, or a non-empty string. */
  predicate OptionalNonEmptyString(b: Json, key: string) {
    Prop(b, key).None? || IsNonEmptyStringProp(b, key)
  }

  /** The account-creation schema: an object with a non-empty string `userId`, optionally a
      non-empty string `routerPairingCode`, and nothing else. */
  predicate CreateBodyValid(b: Json) {
    b.JObject?
    && b.fields.Keys <= {"userId", "routerPairingCode"}
    && IsNonEmptyStringProp(b, "userId")
    && OptionalNonEmptyString(b, "routerPairingCode")
  }

  /** The first update shape: exactly `{active: false}`. */
  predicate DeactivateShape(b: Json) {
    b.JObject? && b.fields.Keys == {"active"} && b.fields["active"] == JBool(false)
  }

  /** The second update shape: only `active`, which must be `true`, and `planId`, a
      non-empty string, each optional. */
  predicate ActivateShape(b: Json) {
    b.JObject? && b.fields.Keys <= {"active", "planId"}
    && (Prop(b, "active").None? || Prop(b, "active") == Some(JBool(true)))
    && OptionalNonEmptyString(b, "planId")
  }

  /** The update schema: an object matching exactly one of the two shapes (`oneOf`). */
  predicate UpdateBodyValid(b: Json) {
    b.JObject? && (DeactivateShape(b) != ActivateShape(b))
  }

  /** The ownership check: an authenticated account whose id is the path's `accountId`. */
  predicate Owns(authenticated: Option<Account>, pathAccountId: string) {
    authenticated.Some? && authenticated.value.id == pathAccountId
  }

  const Forbidden := StatusOnly(403)
  const BadRequest := StatusOnly(400)

  /** `acctCreate`: the controller's result is sent with status 201. */
  function AcctCreate(body: Json, result: Result<Json, string>): Handled {
    if !CreateBodyValid(body) then Sends(BadRequest, false)
    else if result.Failure? then Handled(None, true)
    else Sends(Reply(201, JsonDoc(result.value)), true)
  }

  /** `acctGet`. */
  function AcctGet(authenticated: Option<Account>, pathAccountId: string, result: Result<Json, string>): Handled {
    if !Owns(authenticated, pathAccountId) then Sends(Forbidden, false)
    else if result.Failure? then Handled(None, true)
    else Sends(Reply(200, JsonDoc(result.value)), true)
  }

  /** `acctUpdate`: ownership first, then the body. */
  function AcctUpdate(authenticated: Option<Account>, pathAccountId: string, body: Json, result: Outcome<string>): Handled {
    if !Owns(authenticated, pathAccountId) then Sends(Forbidden, false)
    else if !UpdateBodyValid(body) then Sends(BadRequest, false)
    else if result.Fail? then Handled(None, true)
    else Sends(StatusOnly(204), true)
  }

  /** A stored payment method (`{id, isDefault, cardInfo}`). */
  datatype PaymentMethod = PaymentMethod(id: string, isDefault: bool, brand: string, expMonth: int,
                                         expYear: int, last4: string)

  function MethodJson(m: PaymentMethod): Json {
    JObject(map["id" := JString(m.id), "isDefault" := JBool(m.isDefault),
                "cardInfo" := JObject(map["brand" := JString(m.brand), "expMonth" := JNumber(m.expMonth),
                                          "expYear" := JNumber(m.expYear), "last4" := JString(m.last4)])])
  }

  /** The listing page; a `lastEvaluatedKey` of `undefined` is left out of the JSON text. */
  function ListPage(methods: seq<PaymentMethod>): Json {
    var data := JArray(seq(|methods|, i requires 0 <= i < |methods| => MethodJson(methods[i])));
    if |methods| > 0 then
      JObject(map["hasMore" := JBool(false), "lastEvaluatedKey" := JString(methods[|methods| - 1].id), "data" := data])
    else
      JObject(map["hasMore" := JBool(false), "data" := data])
  }

  /** `acctListPaymentMethods`. */
  function AcctListPaymentMethods(authenticated: Option<Account>, pathAccountId: string,
                                  methods: Result<seq<PaymentMethod>, string>): Handled {
    if !Owns(authenticated, pathAccountId) then Sends(Forbidden, false)
    else if methods.Failure? then Handled(None, true)
    else Sends(Reply(200, JsonDoc(ListPage(methods.value))), true)
  }

  /** `acctCreatePaymentMethod`: the token is checked before ownership; reading `token` of
      a `null` body throws. */
  function AcctCreatePaymentMethod(authenticated: Option<Account>, pathAccountId: string, body: Json,
                                   result: Result<Json, string>): Handled {
    if body.JNull? then Handled(None, false)
    else if !Defined(Prop(body, "token")) then Sends(BadRequest, false)
    else if !Owns(authenticated, pathAccountId) then Sends(Forbidden, false)
    else if result.Failure? then Handled(None, true)
    else Sends(Reply(201, JsonDoc(result.value)), true)
  }

  /** `acctDeletePaymentMethod` and `acctSetDefaultPaymentMethod`, which differ only in the
      controller operation they call. */
  function AcctPaymentMethodChange(authenticated: Option<Account>, pathAccountId: string, result: Outcome<string>): Handled {
    if !Owns(authenticated, pathAccountId) then Sends(Forbidden, false)
    else if result.Fail? then Handled(None, true)
    else Sends(StatusOnly(204), true)
  }

  /** A creation body is accepted exactly when it is an object with a non-empty string
      `userId`, possibly a non-empty string `routerPairingCode`, and no other property; a
      rejected body is answered 400 without calling the controller, an accepted one with
      the controller's result and 201. */
  lemma AcctCreateMeaning(body: Json, result: Result<Json, string>)
    ensures var h := AcctCreate(body, result);
      (h.called <==> CreateBodyValid(body))
      && (!CreateBodyValid(body) ==> h.reply == Some(BadRequest))
      && (CreateBodyValid(body) && result.Success? ==> h.reply == Some(Reply(201, JsonDoc(result.value))))
    ensures CreateBodyValid(body) <==>
      body.JObject? && "userId" in body.fields && body.fields["userId"].JString? && body.fields["userId"].s != ""
      && (forall k :: k in body.fields ==> k == "userId" || k == "routerPairingCode")
      && ("routerPairingCode" in body.fields ==>
            body.fields["routerPairingCode"].JString? && body.fields["routerPairingCode"].s != "")
  {
  }

  /** The two update shapes never both hold, so `oneOf` accepts a body exactly when one of
      them does; `{}` and `{planId}` are accepted, and `{active: false}` with any other
      property is not. */
  lemma UpdateShapes(b: Json, other: string, v: Json)
    ensures UpdateBodyValid(b) <==> DeactivateShape(b) || ActivateShape(b)
    ensures UpdateBodyValid(JObject(map[]))
    ensures v.JString? && v.s != "" ==> UpdateBodyValid(JObject(map["planId" := v]))
    ensures other != "active" ==> !UpdateBodyValid(JObject(map["active" := JBool(false), other := v]))
  {
    var e := JObject(map[]);
    assert ActivateShape(e) && !DeactivateShape(e);
    if v.JString? && v.s != "" {
      var p := JObject(map["planId" := v]);
      assert !DeactivateShape(p) && ActivateShape(p);
    }
    if other != "active" {
      var x := JObject(map["active" := JBool(false), other := v]);
      assert other in x.fields.Keys;
      assert Prop(x, "active") == Some(JBool(false));
    }
  }

  /** Every handler for an existing account answers 403, and calls nothing, unless the
      authenticated account is the one in the path; payment-method creation first requires
      a truthy `token` (400). */
  lemma OwnershipRequired(authenticated: Option<Account>, pathAccountId: string, body: Json,
                          json: Result<Json, string>, done: Outcome<string>,
                          methods: Result<seq<PaymentMethod>, string>)
    requires !Owns(authenticated, pathAccountId)
    ensures AcctGet(authenticated, pathAccountId, json) == Sends(Forbidden, false)
    ensures AcctUpdate(authenticated, pathAccountId, body, done) == Sends(Forbidden, false)
    ensures AcctListPaymentMethods(authenticated, pathAccountId, methods) == Sends(Forbidden, false)
    ensures AcctPaymentMethodChange(authenticated, pathAccountId, done) == Sends(Forbidden, false)
    ensures !body.JNull? ==>
      AcctCreatePaymentMethod(authenticated, pathAccountId, body, json)
        == Sends(if Defined(Prop(body, "token")) then Forbidden else BadRequest, false)
  {
  }

  /** The owner's update is forwarded exactly when the body is valid, and then answered 204. */
  lemma AcctUpdateMeaning(authenticated: Option<Account>, pathAccountId: string, body: Json, result: Outcome<string>)
    requires Owns(authenticated, pathAccountId)
    ensures var h := AcctUpdate(authenticated, pathAccountId, body, result);
      (h.called <==> UpdateBodyValid(body))
      && (!UpdateBodyValid(body) ==> h.reply == Some(BadRequest))
      && (UpdateBodyValid(body) && result.Pass? ==> h.reply == Some(StatusOnly(204)))
  {
  }

  /** The page reports no more results and lists every method in order; `lastEvaluatedKey`
      is the id of the last method, and absent for an empty list. */
  lemma ListPageMeaning(methods: seq<PaymentMethod>)
    ensures var p := ListPage(methods);
      p.JObject? && p.fields["hasMore"] == JBool(false)
      && p.fields["data"].JArray? && |p.fields["data"].items| == |methods|
      && (forall i :: 0 <= i < |methods| ==> p.fields["data"].items[i] == MethodJson(methods[i]))
      && ("lastEvaluatedKey" in p.fields <==> |methods| > 0)
      && (|methods| > 0 ==> p.fields["lastEvaluatedKey"] == JString(methods[|methods| - 1].id))
  {
  }
}
