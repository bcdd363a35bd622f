/** The Router Limits web service as the controllers use it. Its replies are fixed
    functions of the request (the remote system is not modelled); every request made is
    appended to a ghost log, so that the order and number of remote calls can be stated. */
module RouterLimitsService {
  import opened Wrappers
  import opened JsonValues

  /** The `user` part of an account record. */
  datatype RLUser = RLUser(firstName: string, lastName: string, email: string)

  /** A subscription; only its start time (seconds) matters to the core. */
  datatype RLSubscription = RLSubscription(subscriptionStartTime: int)

  datatype RLCall =
    | CreateAccount(userId: Json, routerPairingCode: Option<Json>)
    | GetAccount(accountId: string)
    | GetSubscriptions(accountId: string)
    | CancelAccount(accountId: string)

  /** How many of the logged calls are cancellations of `accountId`. */
  function CancelCount(calls: seq<RLCall>, accountId: string): nat
    decreases |calls|
  {
    if calls == [] then 0
    else CancelCount(calls[..|calls| - 1], accountId)
         + (if calls[|calls| - 1] == CancelAccount(accountId) then 1 else 0)
  }

  lemma {:induction false} CancelCountAppend(a: seq<RLCall>, b: seq<RLCall>, accountId: string)
    ensures CancelCount(a + b, accountId) == CancelCount(a, accountId) + CancelCount(b, accountId)
    decreases |b|
  {
    if b == [] {
      assert a + b == a;
    } else {
      assert (a + b)[..|a + b| - 1] == a + b[..|b| - 1];
      CancelCountAppend(a, b[..|b| - 1], accountId);
    }
  }

  class RouterLimitsClient {
    /** `createAccount(userId, routerPairingCode)`: the new account's id. The arguments are
        whatever values the caller passes (JavaScript does not check them against the
        declared `string` types). */
    const createAccountReply: (Json, Option<Json>) -> Result<string, string>
    /** `getAccount(accountId)`: the account's `user`, which may be absent. */
    const accountReply: string -> Result<Option<RLUser>, string>
    /** `getSubscriptions(accountId)`: the account's subscriptions, oldest first. */
    const subscriptionsReply: string -> Result<seq<RLSubscription>, string>
    /** `cancel(accountId)`. */
    const cancelReply: string -> Outcome<string>
    ghost var calls: seq<RLCall>

    constructor (createAccountReply: (Json, Option<Json>) -> Result<string, string>,
                 accountReply: string -> Result<Option<RLUser>, string>,
                 subscriptionsReply: string -> Result<seq<RLSubscription>, string>,
                 cancelReply: string -> Outcome<string>)
      ensures this.createAccountReply == createAccountReply && this.accountReply == accountReply
      ensures this.subscriptionsReply == subscriptionsReply && this.cancelReply == cancelReply
      ensures calls == []
    {
      this.createAccountReply := createAccountReply;
      this.accountReply := accountReply;
      this.subscriptionsReply := subscriptionsReply;
      this.cancelReply := cancelReply;
      calls := [];
    }

    method CreateAccount(userId: Json, routerPairingCode: Option<Json>) returns (r: Result<string, string>)
      modifies this
      ensures r == createAccountReply(userId, routerPairingCode)
      ensures calls == old(calls) + [RLCall.CreateAccount(userId, routerPairingCode)]
    {
      r := createAccountReply(userId, routerPairingCode);
      calls := calls + [RLCall.CreateAccount(userId, routerPairingCode)];
    }

    method GetAccount(accountId: string) returns (r: Result<Option<RLUser>, string>)
      modifies this
      ensures r == accountReply(accountId)
      ensures calls == old(calls) + [RLCall.GetAccount(accountId)]
    {
      r := accountReply(accountId);
      calls := calls + [RLCall.GetAccount(accountId)];
    }

    method GetSubscriptions(accountId: string) returns (r: Result<seq<RLSubscription>, string>)
      modifies this
      ensures r == subscriptionsReply(accountId)
      ensures calls == old(calls) + [RLCall.GetSubscriptions(accountId)]
    {
      r := subscriptionsReply(accountId);
      calls := calls + [RLCall.GetSubscriptions(accountId)];
    }

    method Cancel(accountId: string) returns (r: Outcome<string>)
      modifies this
      ensures r == cancelReply(accountId)
      ensures calls == old(calls) + [CancelAccount(accountId)]
    {
      r := cancelReply(accountId);
      calls := calls + [CancelAccount(accountId)];
    }
  }
}
