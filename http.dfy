/** The HTTP request and response shapes the two handlers share. */
module Http {
  import opened Wrappers
  import opened Js

  /** A request: its method and its parsed body (`JNull` when none was sent). */
  datatype Request = Request(httpMethod: string, body: Json)

  /** The JSON body (or none) a handler sends with `res.json` / `res.end`. */
  datatype Payload =
    | NoContent                       // `res.status(..).end()`
    | ErrorJson(error: string)        // `{error}`
    | ResponseTextJson(responseText: Json) // `{responseText}`
    | ResponseJson(response: Json)    // `{response}`

  /**
   * What the caller receives: a status and payload the handler sent, or an
   * exception that escaped the handler, answered by the hosting platform.
   */
  datatype Reply = Sent(status: nat, payload: Payload) | Escaped

  const METHOD_NOT_ALLOWED := "Method not allowed"

  /** `const { name } = body` for a body that is not null. */
  function BodyField(body: Json, name: string): Option<Json> {
    Member(Some(body), name)
  }
}
