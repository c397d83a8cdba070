/** What the webhook sees of an HTTP exchange made with `fetch`. */
module Http {
  import opened Wrappers
  import opened JsValue

  /** A response: its status line and its body, which `response.json()`
      either parses into a value or rejects with the parser's message. */
  datatype Reply = Reply(status: nat, statusText: string, body: Result<Value, string>) {
    /** `response.ok`: the status is in the range 200-299. */
    predicate Ok() {
      200 <= status <= 299
    }
  }
}
