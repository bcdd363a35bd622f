/** `JsonReceiver`: adapts a JSON request handler, whose answer is a promise of an optional
    body, status and headers, to an HTTP response. */
module JsonReceiving {
  import opened Wrappers
  import opened JsonValues
  import opened Http

  /** What a handler resolves to; each part may be absent. */
  datatype HandlerResult = HandlerResult(body: Option<Json>, status: Option<int>, headers: Option<map<string, Json>>)

  /** The response: the headers set on it (`None` when none were set) and the reply. */
  datatype Sent = Sent(headers: Option<map<string, Json>>, reply: Reply)

  /** `process`: the handler's promise either resolves (`Success`) or rejects (`Failure`). */
  function Process(outcome: Result<HandlerResult, string>): Sent {
    match outcome
    case Failure(_) => Sent(None, Reply(500, NoBody))
    case Success(h) =>
      var status := if h.status.Some? && h.status.value != 0 then h.status.value
                    else if Defined(h.body) then 200 else 204;
      Sent(Some(h.headers.GetOr(map[])),
           Reply(status, if Defined(h.body) then JsonDoc(h.body.value) else NoBody))
  }

  /** A rejected handler answers 500 with an empty body and sets no headers. A resolved one
      sets its headers (none if absent), sends its body as JSON exactly when the body is
      truthy, and answers with its own status when that is given and non-zero, otherwise
      200 with a body and 204 without one. */
  lemma ProcessMeaning(outcome: Result<HandlerResult, string>)
    ensures var s := Process(outcome);
      (outcome.Failure? ==> s == Sent(None, Reply(500, NoBody)))
      && (outcome.Success? ==>
            var h := outcome.value;
            s.headers == Some(if h.headers.Some? then h.headers.value else map[])
            && (s.reply.body.JsonDoc? <==> Defined(h.body))
            && (s.reply.body.JsonDoc? ==> s.reply.body.doc == h.body.value)
            && (!s.reply.body.JsonDoc? ==> s.reply.body == NoBody)
            && (h.status.Some? && h.status.value != 0 ==> s.reply.status == h.status.value)
            && (h.status.None? || h.status.value == 0 ==>
                  s.reply.status == (if Defined(h.body) then 200 else 204)))
  {
  }

  /** A resolved handler's reply is 204 No Content exactly when the handler asks for 204,
      or gives neither a non-zero status nor a truthy body; a 204 that the handler did not
      ask for never carries a body. */
  lemma NoContentExactly(h: HandlerResult)
    ensures var s := Process(Success(h));
      (s.reply.status == 204 <==>
         h.status == Some(204) || ((h.status.None? || h.status.value == 0) && !Defined(h.body)))
      && (s.reply.status == 204 && h.status != Some(204) ==> s.reply.body == NoBody)
  {
  }

  /** A resolved handler's reply never has status 500 unless the handler asked for it. */
  lemma FiveHundredOnlyFromRejectionOrHandler(outcome: Result<HandlerResult, string>)
    requires Process(outcome).reply.status == 500
    ensures outcome.Failure? || outcome.value.status == Some(500)
  {
  }
}
