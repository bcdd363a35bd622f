/** The HTTP responses the receivers send: a status code and what is written as the body. */
module Http {
  import opened JsonValues

  datatype Body =
    | NoBody                  // `send()` with nothing
    | StatusMessage           // `sendStatus(code)`: the standard reason phrase of the code
    | Text(text: string)      // `send(text)`
    | JsonDoc(doc: Json)      // `json(doc)`

  datatype Reply = Reply(status: int, body: Body)

  function Plain(status: int, text: string): Reply {
    Reply(status, Text(text))
  }

  function StatusOnly(status: int): Reply {
    Reply(status, StatusMessage)
  }

  function Abs(x: int): (r: nat)
    ensures r == x || r == -x
  {
    if x < 0 then -x else x
  }
}
