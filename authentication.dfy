/** Single sign-on with a Router Limits token (`AuthenticationController`): the token is
    decoded and its signature checked (a given function standing for the JWT library),
    its payload shape checked, its issue time compared with the clock, its nonce (`jti`)
    checked against and added to a set of recently seen nonces, and the account looked up;
    success issues an API key for the account. */
module Authentication {
  import opened Wrappers
  import opened JsonValues
  import opened Http
  import opened Expiry
  import opened Accounts
  import opened ApiKeys

  /** The three kinds of answer (INVALID, DENIED, SUCCESS); a success carries the issued
      key and the account id. */
  datatype AuthResponse = Invalid(message: string) | Denied(message: string) | Granted(apiKey: string, accountId: string)

  /** The decoded token fields the controller reads. */
  datatype Token = Token(aid: string, iat: int, jti: string, oid: string, action: Option<string>)

  /** `decode`: the JWT library's decoding and signature check under the shared secret
      (`None` when it throws); `jwtValidInterval`: the accepted clock difference;
      `nonceTtl`: how long nonces are remembered (the webhook valid interval);
      `keyStream`: the random API keys. */
  datatype AuthConfig = AuthConfig(decode: Json -> Option<Json>, jwtValidInterval: int, nonceTtl: int,
                                   keyStream: nat -> string)

  datatype AuthState = AuthState(used: Epochs<string>, keys: KeyState)

  const BadToken := "Invalid token or signature"
  const BadFormat := "Invalid decoded token format"
  const Expired := "Expired token"
  const Replayed := "Replayed token"
  const NoSuchAccount := "No such account"

  /** The payload schema: an object with non-empty strings `aid`, `jti` and `oid`, a
      number `iat`, and, if present, a non-empty string `action`; other properties are
      allowed. */
  predicate TokenShape(d: Json) {
    d.JObject?
    && IsNonEmptyStringProp(d, "aid")
    && IsNumberProp(d, "iat")
    && IsNonEmptyStringProp(d, "jti")
    && IsNonEmptyStringProp(d, "oid")
    && (Prop(d, "action").None? || IsNonEmptyStringProp(d, "action"))
  }

  function TokenOf(d: Json): Token
    requires TokenShape(d)
  {
    Token(Prop(d, "aid").value.s, Prop(d, "iat").value.n, Prop(d, "jti").value.s, Prop(d, "oid").value.s,
          if Prop(d, "action").Some? then Some(Prop(d, "action").value.s) else None)
  }

  /** `handle(token)` at time `now`, reading the account directory. */
  function Authenticate(cfg: AuthConfig, accounts: Directory, st: AuthState, token: Json, now: int)
    : (AuthResponse, AuthState)
  {
    match cfg.decode(token)
    case None => (Invalid(BadToken), st)
    case Some(d) =>
      if !TokenShape(d) then (Invalid(BadFormat), st)
      else
        var t := TokenOf(d);
        if Abs(now - t.iat) > cfg.jwtValidInterval then (Denied(Expired), st)
        else if HasAt(st.used, cfg.nonceTtl, t.jti, now) then
          (Denied(Replayed), st.(used := Rotate(st.used, cfg.nonceTtl, now)))
        else
          var used' := Add(Rotate(st.used, cfg.nonceTtl, now), cfg.nonceTtl, t.jti, now);
          match Accounts.Lookup(accounts, t.aid)
          case None => (Denied(NoSuchAccount), st.(used := used'))
          case Some(acct) =>
            var (key, keys') := IssueKey(st.keys, cfg.keyStream, Some(acct.id));
            (Granted(key, acct.id), AuthState(used', keys'))
  }

  /** `validateApiKey(key)`: the account the key was issued for. */
  function AccountForKey(keys: KeyState, accounts: Directory, key: string): Option<Account> {
    match AccountIdByKey(keys, key)
    case None => None
    case Some(id) => if id == "" then None else Accounts.Lookup(accounts, id)
  }

  /** A token that cannot be decoded, or whose payload does not have the required shape,
      is INVALID and changes nothing. */
  lemma InvalidTokensChangeNothing(cfg: AuthConfig, accounts: Directory, st: AuthState, token: Json, now: int)
    ensures var (r, st') := Authenticate(cfg, accounts, st, token, now);
      (r == Invalid(BadToken) <==> cfg.decode(token).None?)
      && (r == Invalid(BadFormat) <==> cfg.decode(token).Some? && !TokenShape(cfg.decode(token).value))
      && (r.Invalid? ==> st' == st)
  {
  }

  /** Properties outside the schema's five never change whether a payload is accepted. */
  lemma ExtraClaimsAllowed(fields: map<string, Json>, key: string, v: Json)
    requires key !in {"aid", "iat", "jti", "oid", "action"}
    ensures TokenShape(JObject(fields[key := v])) == TokenShape(JObject(fields))
  {
    var a, b := JObject(fields[key := v]), JObject(fields);
    assert Prop(a, "aid") == Prop(b, "aid") && Prop(a, "iat") == Prop(b, "iat");
    assert Prop(a, "jti") == Prop(b, "jti") && Prop(a, "oid") == Prop(b, "oid");
    assert Prop(a, "action") == Prop(b, "action");
  }

  /** A well-formed token issued more than `jwtValidInterval` seconds away from `now` is
      DENIED as expired before its nonce is looked at; nothing is recorded. */
  lemma ExpiredTokenNotRecorded(cfg: AuthConfig, accounts: Directory, st: AuthState, token: Json, now: int)
    requires cfg.decode(token).Some? && TokenShape(cfg.decode(token).value)
    requires Abs(now - TokenOf(cfg.decode(token).value).iat) > cfg.jwtValidInterval
    ensures Authenticate(cfg, accounts, st, token, now) == (Denied(Expired), st)
  {
  }

  /** A timely token with a fresh nonce consumes the nonce before the account lookup: an
      unknown account is DENIED, yet the nonce is now seen. A known account is granted a
      new key, bound to the account, which then validates to that account. */
  lemma FreshTokenOutcome(cfg: AuthConfig, accounts: Directory, st: AuthState, token: Json, now: int)
    requires cfg.nonceTtl > 0 && now >= 0 && KeyedById(accounts)
    requires cfg.decode(token).Some? && TokenShape(cfg.decode(token).value)
    requires Abs(now - TokenOf(cfg.decode(token).value).iat) <= cfg.jwtValidInterval
    requires !HasAt(st.used, cfg.nonceTtl, TokenOf(cfg.decode(token).value).jti, now)
    ensures var t := TokenOf(cfg.decode(token).value);
      var (r, st') := Authenticate(cfg, accounts, st, token, now);
      HasAt(st'.used, cfg.nonceTtl, t.jti, now)
      && (t.aid !in accounts ==> r == Denied(NoSuchAccount) && st'.keys == st.keys)
      && (t.aid in accounts ==>
            r == Granted(cfg.keyStream(st.keys.issued), t.aid)
            && AccountForKey(st'.keys, accounts, r.apiKey) == Some(accounts[t.aid]))
  {
    var t := TokenOf(cfg.decode(token).value);
    RotateIdempotent(st.used, cfg.nonceTtl, now);
    InsertThenHas(Rotate(st.used, cfg.nonceTtl, now), cfg.nonceTtl, t.jti, now);
  }

  /** Replay protection: once a token's nonce has been recorded at time `t`, presenting the
      same token again at a later time `u` is DENIED, whatever other nonces are checked or
      recorded in between, as long as `u` is within the nonce lifetime `[t, t + nonceTtl]`;
      if nonces outlive twice the token validity, it is DENIED at every later time. */
  lemma ReplayDenied(cfg: AuthConfig, accounts: Directory, st: AuthState, token: Json, t: int,
                     trace: seq<Access<string>>, later: AuthState, u: int)
    requires cfg.nonceTtl > 0 && 0 <= t <= u && st.used.lastUpdate <= t
    requires Authenticate(cfg, accounts, st, token, t).0.Granted?
          || Authenticate(cfg, accounts, st, token, t).0 == Denied(NoSuchAccount)
    requires Chronological(trace, t, u) && NeverRecords(trace, TokenOf(cfg.decode(token).value).jti)
    requires later.used == Replay(Authenticate(cfg, accounts, st, token, t).1.used, cfg.nonceTtl, trace)
    requires u <= t + cfg.nonceTtl || cfg.nonceTtl >= 2 * cfg.jwtValidInterval
    ensures Authenticate(cfg, accounts, later, token, u).0.Denied?
  {
    var tok := TokenOf(cfg.decode(token).value);
    if u <= t + cfg.nonceTtl {
      KeyLifetime(Rotate(st.used, cfg.nonceTtl, t), cfg.nonceTtl, tok.jti, t, trace, u);
    }
  }

  /** A key that was never issued, or one bound to no account id, validates to nothing;
      otherwise validation yields the directory's record for the bound id. */
  lemma ValidateApiKeyMeaning(keys: KeyState, accounts: Directory, key: string)
    ensures var v := AccountForKey(keys, accounts, key);
      (key !in keys.owners ==> v.None?)
      && (key in keys.owners && keys.owners[key].None? ==> v.None?)
      && (key in keys.owners && keys.owners[key].Some? && keys.owners[key].value != "" ==>
            v == Accounts.Lookup(accounts, keys.owners[key].value))
  {
  }

  /** The controller: the nonce set keeps nonces for the webhook valid interval. */
  class AuthenticationController {
    const decode: Json -> Option<Json>
    const jwtValidInterval: int
    const accounts: MockAccountsModel
    const apikeys: ApiKeyStore
    const usedIds: ExpireSet<string>

    function Config(): AuthConfig {
      AuthConfig(decode, jwtValidInterval, usedIds.ttl, apikeys.keyStream)
    }

    function State(): AuthState
      reads usedIds, apikeys
    {
      AuthState(usedIds.State(), apikeys.State())
    }

    constructor (decode: Json -> Option<Json>, jwtValidInterval: int, webhookValidInterval: int,
                 accounts: MockAccountsModel, apiKeys: ApiKeyStore, now: int)
      ensures fresh(usedIds) && usedIds.ttl == webhookValidInterval && usedIds.State() == Fresh(now)
      ensures this.decode == decode && this.jwtValidInterval == jwtValidInterval
      ensures this.accounts == accounts && this.apikeys == apiKeys
    {
      this.decode := decode;
      this.jwtValidInterval := jwtValidInterval;
      this.accounts := accounts;
      this.apikeys := apiKeys;
      usedIds := new ExpireSet(webhookValidInterval, now);
    }

    method Handle(token: Json, now: int) returns (r: AuthResponse)
      modifies usedIds, apikeys
      ensures (r, State()) == Authenticate(Config(), accounts.accounts, old(State()), token, now)
    {
      var decoded := decode(token);
      if decoded.None? {
        return Invalid(BadToken);
      }
      if !TokenShape(decoded.value) {
        return Invalid(BadFormat);
      }
      var t := TokenOf(decoded.value);
      if Abs(now - t.iat) > jwtValidInterval {
        return Denied(Expired);
      }
      var seen := usedIds.Has(t.jti, now);
      if seen {
        return Denied(Replayed);
      }
      usedIds.Insert(t.jti, now);
      var acct := accounts.Get(t.aid);
      if acct.None? {
        return Denied(NoSuchAccount);
      }
      var key := apikeys.Generate(Some(acct.value.id));
      r := Granted(key, acct.value.id);
    }

    method ValidateApiKey(apiKey: string) returns (a: Option<Account>)
      ensures a == AccountForKey(apikeys.State(), accounts.accounts, apiKey)
    {
      var accountId := apikeys.GetAccountIdByKey(apiKey);
      if accountId.None? || accountId.value == "" {
        return None;
      }
      a := accounts.Get(accountId.value);
    }
  }
}
