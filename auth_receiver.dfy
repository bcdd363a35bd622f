/** `AuthenticationReceiver.authViaJwt`: the HTTP front of the single sign-on, which reads
    the `jwt` property of the request body, asks the authentication controller and maps
    its answer to a status code. */
module AuthenticationReceiving {
  import opened Wrappers
  import opened JsonValues
  import opened Http
  import opened Authentication

  const MissingJwtReply := Reply(400, JsonDoc(JString("Missing JWT")))

  /** The token to hand to the controller: `req.body.jwt` when the body and that property
      are both truthy (`req.body` may be absent). */
  function JwtOf(body: Option<Json>): Option<Json> {
    if Defined(body) && Defined(Prop(body.value, "jwt")) then Prop(body.value, "jwt") else None
  }

  /** The response to the controller's answer; `Failure` stands for a thrown error. */
  function Answer(outcome: Result<AuthResponse, string>): Reply {
    match outcome
    case Failure(_) => StatusOnly(500)
    case Success(Granted(key, id)) =>
      Reply(200, JsonDoc(JObject(map["apiKey" := JString(key), "accountId" := JString(id)])))
    case Success(Invalid(m)) => Reply(400, JsonDoc(JString(m)))
    case Success(Denied(m)) => Reply(401, JsonDoc(JString(m)))
  }

  /** Each kind of answer has its own status code: 200 exactly for SUCCESS (with the key and
      account id as the body), 400 for INVALID and 401 for DENIED (each with the message as
      a JSON string), 500 exactly when the controller throws. */
  lemma AnswerStatus(outcome: Result<AuthResponse, string>)
    ensures var r := Answer(outcome);
      (r.status == 500 <==> outcome.Failure?)
      && (r.status == 200 <==> outcome.Success? && outcome.value.Granted?)
      && (r.status == 400 <==> outcome.Success? && outcome.value.Invalid?)
      && (r.status == 401 <==> outcome.Success? && outcome.value.Denied?)
      && (outcome.Success? && outcome.value.Granted? ==>
            r.body == JsonDoc(JObject(map["apiKey" := JString(outcome.value.apiKey),
                                          "accountId" := JString(outcome.value.accountId)])))
      && (outcome.Success? && !outcome.value.Granted? ==> r.body == JsonDoc(JString(outcome.value.message)))
  {
  }

  /** The token handed to the controller is exactly the request's truthy `jwt`. */
  lemma JwtRequired(body: Option<Json>)
    ensures JwtOf(body).None? <==> body.None? || !Truthy(body.value) || !Defined(Prop(body.value, "jwt"))
    ensures JwtOf(body).Some? ==> Truthy(JwtOf(body).value) && JwtOf(body) == Prop(body.value, "jwt")
  {
  }

  class AuthenticationReceiver {
    const c: AuthenticationController

    constructor (c: AuthenticationController)
      ensures this.c == c
    {
      this.c := c;
    }

    /** `authViaJwt` at time `now`. Without a token the controller is not asked and nothing
        changes; otherwise the reply is the controller's answer, mapped. */
    method AuthViaJwt(body: Option<Json>, now: int) returns (r: Reply)
      modifies c.usedIds, c.apikeys
      ensures JwtOf(body).None? ==> r == MissingJwtReply && c.State() == old(c.State())
      ensures JwtOf(body).Some? ==>
        var (answer, st) := Authenticate(c.Config(), c.accounts.accounts, old(c.State()), JwtOf(body).value, now);
        r == Answer(Success(answer)) && c.State() == st
    {
      var jwt := JwtOf(body);
      if jwt.None? {
        return MissingJwtReply;
      }
      var result := c.Handle(jwt.value, now);
      r := Answer(Success(result));
    }
  }
}
