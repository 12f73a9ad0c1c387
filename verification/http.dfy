/** What a `fetch` call can come back with, as the extension observes it.
    The network itself is not modelled: a reply is an input. */
module Http {
  import opened Wrappers

  /** A thrown JavaScript error: its `name` (`TypeError`, `SyntaxError`,
      `Error`, ...) and its `message`. */
  datatype JsError = JsError(name: string, message: string)

  /** The result of `response.json()`: either it rejects (the body is not
      JSON), or it yields a document whose `message` field may be absent.
      `document` stands for the whole parsed value. */
  datatype Body = Unparsable(error: JsError) | Parsed(message: Option<string>, document: string)

  /** `fetch` either rejects (the server could not be reached) or resolves
      to a response with a status and a body. */
  datatype Reply = Rejected(error: JsError) | Response(status: nat, body: Body)

  /** `response.ok`: the status is in the range 200 to 299. */
  predicate IsOk(status: nat) {
    200 <= status <= 299
  }
}
