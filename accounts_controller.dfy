/** `AccountsController`: account creation, which creates the account in Router Limits,
    reads it back, creates the billing customer, records the account mapping and issues an
    API key; the other account operations are not implemented (501). */
module AccountsControl {
  import opened Wrappers
  import opened JsonValues
  import opened Text
  import opened JsonReceiving
  import opened RouterLimitsService
  import opened Billing
  import opened Accounts
  import opened ApiKeys
  import Authentication

  datatype CreationState = CreationState(billing: BillingState, accounts: Directory, keys: KeyState)

  /** The Router Limits replies account creation depends on. */
  datatype Remote = Remote(createAccountReply: (Json, Option<Json>) -> Result<string, string>,
                           accountReply: string -> Result<Option<RLUser>, string>)

  /** Reading `userId` of a `null` body throws. */
  const NullBodyError := "TypeError: body is null"
  const FailedLookup := "Failed RL account lookup"

  const BadRequest := HandlerResult(None, Some(400), None)

  /** The 201 body: `{account: {id, active: false}, apiKey}`. */
  function CreationResponse(accountId: string, apiKey: string): Json {
    JObject(map["account" := JObject(map["id" := JString(accountId), "active" := JBool(false)]),
                "apiKey" := JString(apiKey)])
  }

  /** `accountCreation(body)`: the handler's outcome, the new state and the Router Limits
      calls made. `bindToAccount` selects how the API key is generated: `false` is the code
      as written, which passes the (void) result of `accounts.create` to `generate`, so the
      key is bound to `undefined`; `true` binds it to the new account's id. */
  function Creation(st: CreationState, remote: Remote, keyStream: nat -> string, body: Json,
                    bindToAccount: bool): (Result<HandlerResult, string>, CreationState, seq<RLCall>)
  {
    if body.JNull? then (Failure(NullBodyError), st, [])
    else
      var userId := Prop(body, "userId");
      if !Defined(userId) then (Success(BadRequest), st, [])
      else
        var pairing := Prop(body, "routerPairingCode");
        var c1 := [RLCall.CreateAccount(userId.value, pairing)];
        match remote.createAccountReply(userId.value, pairing)
        case Failure(e) => (Failure(e), st, c1)
        case Success(accountId) =>
          var calls := c1 + [GetAccount(accountId)];
          match remote.accountReply(accountId)
          case Failure(e) => (Failure(e), st, calls)
          case Success(user) =>
            if user.None? then (Failure(FailedLookup), st, calls)
            else
              var (billingId, billing') := AddCustomer(st.billing);
              var (mapped, accounts') := CreateMapping(st.accounts, accountId, billingId);
              if mapped.Fail? then (Failure(mapped.error), st.(billing := billing', accounts := accounts'), calls)
              else
                var (apiKey, keys') := IssueKey(st.keys, keyStream, if bindToAccount then Some(accountId) else None);
                (Success(HandlerResult(Some(CreationResponse(accountId, apiKey)), Some(201), None)),
                 CreationState(billing', accounts', keys'), calls)
  }

  /** The account creation as written. */
  function AccountCreationAsWritten(st: CreationState, remote: Remote, keyStream: nat -> string, body: Json)
    : (Result<HandlerResult, string>, CreationState, seq<RLCall>)
  {
    Creation(st, remote, keyStream, body, false)
  }

  /** The account creation with the key bound to the new account. */
  function AccountCreation(st: CreationState, remote: Remote, keyStream: nat -> string, body: Json)
    : (Result<HandlerResult, string>, CreationState, seq<RLCall>)
  {
    Creation(st, remote, keyStream, body, true)
  }

  /** A (non-null) body whose `userId` is falsy is answered 400 before anything is done. */
  lemma UserIdRequired(st: CreationState, remote: Remote, keyStream: nat -> string, body: Json, bind: bool)
    requires !body.JNull?
    ensures var (r, st', calls) := Creation(st, remote, keyStream, body, bind);
      (r == Success(BadRequest) <==> !Defined(Prop(body, "userId")))
      && (r == Success(BadRequest) ==> st' == st && calls == [])
  {
  }

  /** The steps, in order: the account is created in Router Limits with the request's
      `userId` and `routerPairingCode`, then read back; only if both succeed and the account
      has a user is a billing customer created (the next counter value), then the mapping
      from the account to that customer is recorded and a key issued. The answer is 201
      exactly when every step succeeds. A mapping that is refused leaves the new billing
      customer in place. */
  lemma CreationSteps(st: CreationState, remote: Remote, keyStream: nat -> string, body: Json, bind: bool)
    requires !body.JNull? && Defined(Prop(body, "userId"))
    ensures var (r, st', calls) := Creation(st, remote, keyStream, body, bind);
      var userId := Prop(body, "userId").value;
      var pairing := Prop(body, "routerPairingCode");
      var created := remote.createAccountReply(userId, pairing);
      var billingId := NatToDecimal(st.billing.nextId);
      |calls| >= 1 && calls[0] == RLCall.CreateAccount(userId, pairing)
      && (created.Failure? ==> r == Failure(created.error) && st' == st && |calls| == 1)
      && (created.Success? ==> calls == [RLCall.CreateAccount(userId, pairing), GetAccount(created.value)])
      && (created.Success? && remote.accountReply(created.value).Failure? ==>
            r == Failure(remote.accountReply(created.value).error) && st' == st)
      && (created.Success? && remote.accountReply(created.value) == Success(None) ==>
            r == Failure(FailedLookup) && st' == st)
      && (r.Success? <==>
            created.Success? && remote.accountReply(created.value).Success?
            && remote.accountReply(created.value).value.Some?
            && CreateMapping(st.accounts, created.value, billingId).0.Pass?)
      && (r.Success? ==>
            r.value.status == Some(201)
            && r.value.body == Some(CreationResponse(created.value, keyStream(st.keys.issued)))
            && st'.billing == AddCustomer(st.billing).1
            && st'.accounts == CreateMapping(st.accounts, created.value, billingId).1
            && st'.keys == IssueKey(st.keys, keyStream, if bind then Some(created.value) else None).1)
      && (created.Success? && remote.accountReply(created.value).Success?
          && remote.accountReply(created.value).value.Some?
          && CreateMapping(st.accounts, created.value, billingId).0.Fail? ==>
            r == Failure("Already created") && st'.billing == AddCustomer(st.billing).1
            && st'.accounts == st.accounts && st'.keys == st.keys)
  {
  }

  /** Account creation keeps the directory keyed by account id and the billing ids below
      the counter. */
  lemma CreationKeepsInvariants(st: CreationState, remote: Remote, keyStream: nat -> string, body: Json, bind: bool)
    requires KeyedById(st.accounts) && IdsBelowCounter(st.billing)
    ensures var st' := Creation(st, remote, keyStream, body, bind).1;
      KeyedById(st'.accounts) && IdsBelowCounter(st'.billing)
  {
    var (r, st', calls) := Creation(st, remote, keyStream, body, bind);
    if st' != st {
      var (billingId, billing') := AddCustomer(st.billing);
      CreateCustomerFresh(st.billing);
      CreateKeepsKeyedById(st.accounts, remote.createAccountReply(Prop(body, "userId").value,
                                                               Prop(body, "routerPairingCode")).value, billingId);
    }
  }

  /** As written, the key handed out on a successful creation is bound to no account, so
      it can never be validated. */
  lemma AsWrittenKeyValidatesToNothing(st: CreationState, remote: Remote, keyStream: nat -> string, body: Json)
    requires AccountCreationAsWritten(st, remote, keyStream, body).0.Success?
    requires AccountCreationAsWritten(st, remote, keyStream, body).0.value.status == Some(201)
    ensures var (r, st', _) := AccountCreationAsWritten(st, remote, keyStream, body);
      var key := keyStream(st.keys.issued);
      r.value.body.value.fields["apiKey"] == JString(key)
      && ApiKeys.AccountIdByKey(st'.keys, key).None?
      && Authentication.AccountForKey(st'.keys, st'.accounts, key).None?
  {
    CreationSteps(st, remote, keyStream, body, false);
  }

  /** A concrete run showing it: an empty system, a Router Limits account "5" with a user,
      and a body with a `userId`. */
  lemma AsWrittenExample()
    ensures var remote := Remote((u, p) => Success("5"), id => Success(Some(RLUser("A", "B", "a@b"))));
      var (r, st', _) := AccountCreationAsWritten(CreationState(BillingState(map[], 0), map[], KeyState(map[], 0)),
                                                  remote, n => "key", JObject(map["userId" := JString("u1")]));
      r.Success? && r.value.status == Some(201) && "5" in st'.accounts
      && Authentication.AccountForKey(st'.keys, st'.accounts, "key").None?
  {
    var remote := Remote((u, p) => Success("5"), id => Success(Some(RLUser("A", "B", "a@b"))));
    var st := CreationState(BillingState(map[], 0), map[], KeyState(map[], 0));
    var body := JObject(map["userId" := JString("u1")]);
    assert Prop(body, "userId") == Some(JString("u1"));
    CreationSteps(st, remote, n => "key", body, false);
  }

  /** With the key bound to the account, the key handed out validates to the new account
      record, which maps the Router Limits account to the new billing customer. */
  lemma KeyValidatesToNewAccount(st: CreationState, remote: Remote, keyStream: nat -> string, body: Json)
    requires KeyedById(st.accounts)
    requires AccountCreation(st, remote, keyStream, body).0.Success?
    requires AccountCreation(st, remote, keyStream, body).0.value.status == Some(201)
    ensures var (r, st', _) := AccountCreation(st, remote, keyStream, body);
      var accountId := remote.createAccountReply(Prop(body, "userId").value, Prop(body, "routerPairingCode")).value;
      var key := keyStream(st.keys.issued);
      r.value.body.value.fields["apiKey"] == JString(key)
      && (accountId != "" ==>
            Authentication.AccountForKey(st'.keys, st'.accounts, key)
              == Some(Account(accountId, NatToDecimal(st.billing.nextId))))
  {
    CreationSteps(st, remote, keyStream, body, true);
  }

  /** The account operations that are not implemented. */
  datatype StubbedOperation =
    | AccountGet | AccountUpdate | PaymentMethodsList | PaymentMethodCreation
    | PaymentMethodDelete | PaymentMethodSetDefault

  /** Every stubbed operation resolves to status 501 alone. */
  function Unimplemented(op: StubbedOperation): (h: HandlerResult)
    ensures Process(Success(h)).reply == Http.Reply(501, Http.NoBody)
  {
    HandlerResult(None, Some(501), None)
  }

  class AccountsController {
    const billing: MockBillingModel
    const accounts: MockAccountsModel
    const apiKeys: ApiKeyStore
    const rl: RouterLimitsClient

    constructor (billing: MockBillingModel, accounts: MockAccountsModel, apiKeys: ApiKeyStore, rl: RouterLimitsClient)
      ensures this.billing == billing && this.accounts == accounts && this.apiKeys == apiKeys && this.rl == rl
    {
      this.billing := billing;
      this.accounts := accounts;
      this.apiKeys := apiKeys;
      this.rl := rl;
    }

    function State(): CreationState
      reads billing, accounts, apiKeys
    {
      CreationState(billing.State(), accounts.accounts, apiKeys.State())
    }

    function RemoteOf(): Remote {
      Remote(rl.createAccountReply, rl.accountReply)
    }

    /** The handler, with the key bound to the new account. */
    method AccountCreation(body: Json) returns (r: Result<HandlerResult, string>)
      modifies billing, accounts, apiKeys, rl
      ensures var (r0, st, calls) := Creation(old(State()), RemoteOf(), apiKeys.keyStream, body, true);
        r == r0 && State() == st && rl.calls == old(rl.calls) + calls
    {
      if body.JNull? {
        return Failure(NullBodyError);
      }
      var userId := Prop(body, "userId");
      if !Defined(userId) {
        return Success(BadRequest);
      }
      var created := rl.CreateAccount(userId.value, Prop(body, "routerPairingCode"));
      if created.Failure? {
        return Failure(created.error);
      }
      var accountId := created.value;
      var fetched := rl.GetAccount(accountId);
      if fetched.Failure? {
        return Failure(fetched.error);
      }
      if fetched.value.None? {
        return Failure(FailedLookup);
      }
      var billingId := billing.CreateCustomer();
      var mapped := accounts.Create(accountId, billingId);
      if mapped.Fail? {
        return Failure(mapped.error);
      }
      var apiKey := apiKeys.Generate(Some(accountId));
      r := Success(HandlerResult(Some(CreationResponse(accountId, apiKey)), Some(201), None));
    }
  }
}
