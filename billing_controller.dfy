/** Handling of a billing-side subscription cancellation (`BillingWebhookController`):
    find the Router Limits account mapped to the billing customer and cancel its Router
    Limits subscription, unless the event is older than that subscription. */
module BillingWebhookControl {
  import opened Wrappers
  import opened Accounts
  import opened RouterLimitsService

  /** The error the handler rejects with; `specialCase` marks errors callers single out. */
  datatype HandlerError = HandlerError(message: string, specialCase: Option<string>)

  const UnknownAccount := "UNKNOWN_ACCOUNT"
  const NoSuchAccountForBillingId := "No such account with that billingId"

  /** `handleAccountSubscriptionCancel` once the account has been looked up by billing id:
      the outcome, and the Router Limits calls made, in order. */
  function CancelFlow(found: Option<Account>, subscriptionsReply: string -> Result<seq<RLSubscription>, string>,
                      cancelReply: string -> Outcome<string>, timestamp: int): (Outcome<HandlerError>, seq<RLCall>)
  {
    if found.None? || found.value.id == "" then
      (Fail(HandlerError(NoSuchAccountForBillingId, Some(UnknownAccount))), [])
    else
      var id := found.value.id;
      match subscriptionsReply(id)
      case Failure(e) => (Fail(HandlerError(e, None)), [GetSubscriptions(id)])
      case Success(subs) =>
        if |subs| <= 0 then (Pass, [GetSubscriptions(id)])
        else if subs[0].subscriptionStartTime > timestamp then (Pass, [GetSubscriptions(id)])
        else
          match cancelReply(id)
          case Pass => (Pass, [GetSubscriptions(id), CancelAccount(id)])
          case Fail(e) => (Fail(HandlerError(e, None)), [GetSubscriptions(id), CancelAccount(id)])
  }

  /** An unknown billing id (no account, or one without an id) is rejected with the
      UNKNOWN_ACCOUNT special case before Router Limits is contacted. */
  lemma UnknownAccountRejected(found: Option<Account>, subscriptionsReply: string -> Result<seq<RLSubscription>, string>,
                               cancelReply: string -> Outcome<string>, timestamp: int)
    requires found.None? || found.value.id == ""
    ensures var (r, calls) := CancelFlow(found, subscriptionsReply, cancelReply, timestamp);
      r.Fail? && r.error.specialCase == Some(UnknownAccount) && calls == []
  {
  }

  /** The Router Limits subscription is cancelled (exactly once, for the mapped account) if
      and only if the account is known, its subscriptions could be read, there is at least
      one, and the first one started no later than the event. */
  lemma CancelsExactlyWhenDue(found: Option<Account>, subscriptionsReply: string -> Result<seq<RLSubscription>, string>,
                              cancelReply: string -> Outcome<string>, timestamp: int)
    requires found.Some? && found.value.id != ""
    ensures var id := found.value.id;
      var (r, calls) := CancelFlow(found, subscriptionsReply, cancelReply, timestamp);
      var subs := subscriptionsReply(id);
      var due := subs.Success? && |subs.value| > 0 && subs.value[0].subscriptionStartTime <= timestamp;
      (due ==> CancelCount(calls, id) == 1 && calls[|calls| - 1] == CancelAccount(id)
               && (r.Pass? <==> cancelReply(id).Pass?))
      && (!due ==> CancelCount(calls, id) == 0 && (r.Pass? <==> subs.Success?))
      && calls[0] == GetSubscriptions(id)
      && (forall other :: other != id ==> CancelCount(calls, other) == 0)
  {
    var id := found.value.id;
    var calls := CancelFlow(found, subscriptionsReply, cancelReply, timestamp).1;
    assert calls[..1] == [GetSubscriptions(id)];
    if |calls| == 2 {
      assert calls[..|calls| - 1] == [GetSubscriptions(id)];
      assert [GetSubscriptions(id)][..0] == [];
    } else {
      assert calls[..0] == [];
    }
  }

  /** Only the first subscription is consulted: lists that agree on it lead to the same
      outcome and the same calls. */
  lemma OnlyFirstSubscriptionMatters(found: Option<Account>, a: seq<RLSubscription>, b: seq<RLSubscription>,
                                     cancelReply: string -> Outcome<string>, timestamp: int)
    requires |a| > 0 && |b| > 0 && a[0] == b[0]
    ensures CancelFlow(found, _ => Success(a), cancelReply, timestamp)
         == CancelFlow(found, _ => Success(b), cancelReply, timestamp)
  {
  }

  /** The handler, with the account lookup by billing id (not part of the directory shown)
      given as a function of the directory's contents. */
  class BillingWebhookController {
    const accounts: MockAccountsModel
    const rl: RouterLimitsClient
    const byBillingId: (Directory, string) -> Option<Account>

    constructor (accounts: MockAccountsModel, rl: RouterLimitsClient, byBillingId: (Directory, string) -> Option<Account>)
      ensures this.accounts == accounts && this.rl == rl && this.byBillingId == byBillingId
    {
      this.accounts := accounts;
      this.rl := rl;
      this.byBillingId := byBillingId;
    }

    /** What handling an event would do in the current state. */
    function Expected(timestamp: int, billingAccountId: string): (Outcome<HandlerError>, seq<RLCall>)
      reads accounts
    {
      CancelFlow(byBillingId(accounts.accounts, billingAccountId), rl.subscriptionsReply, rl.cancelReply, timestamp)
    }

    /** Only the Router Limits call log changes: the directory is never modified. */
    method HandleAccountSubscriptionCancel(timestamp: int, billingAccountId: string) returns (r: Outcome<HandlerError>)
      modifies rl
      ensures r == old(Expected(timestamp, billingAccountId)).0
      ensures rl.calls == old(rl.calls) + old(Expected(timestamp, billingAccountId)).1
    {
      var accountInfo := byBillingId(accounts.accounts, billingAccountId);
      if accountInfo.None? || accountInfo.value.id == "" {
        return Fail(HandlerError(NoSuchAccountForBillingId, Some(UnknownAccount)));
      }
      var id := accountInfo.value.id;
      var rlSubs := rl.GetSubscriptions(id);
      if rlSubs.Failure? {
        return Fail(HandlerError(rlSubs.error, None));
      }
      if |rlSubs.value| <= 0 {
        return Pass;
      }
      if rlSubs.value[0].subscriptionStartTime > timestamp {
        return Pass;
      }
      var cancelled := rl.Cancel(id);
      if cancelled.Fail? {
        return Fail(HandlerError(cancelled.error, None));
      }
      r := Pass;
    }
  }
}
