/**
 * The text-generation provider at its boundary: one call per request, whose
 * outcome (a parsed JSON answer, a non-ok HTTP answer with its body text, or a
 * thrown exception from the transport or from parsing) is injected.
 */
module Provider {
  import opened Js

  datatype Answer =
    | Ok(data: Json)         // `response.ok`, and `response.json()` parsed
    | NotOk(text: string)    // `!response.ok`, with `response.text()`
    | Throws(message: string) // `fetch`, `text()` or `json()` raised an exception

  const API_ERROR_PREFIX := "Gemini API error: "

  /** The message of the exception a handler is left holding after a failed call. */
  function FailureMessage(a: Answer): (m: string)
    requires !a.Ok?
    ensures a.NotOk? ==> m == API_ERROR_PREFIX + a.text && m != ""
    ensures a.Throws? ==> m == a.message
  {
    match a
    case NotOk(t) => API_ERROR_PREFIX + t
    case Throws(m) => m
  }

  /** The provider as the handlers see it: it records every prompt it is sent. */
  class Client {
    var sent: seq<Json>

    constructor ()
      ensures sent == []
    {
      sent := [];
    }

    /** One provider call carrying `prompt`; the call is counted whatever it answers. */
    method Generate(prompt: Json, answer: Answer) returns (r: Answer)
      modifies this
      ensures sent == old(sent) + [prompt]
      ensures r == answer
    {
      sent := sent + [prompt];
      r := answer;
    }
  }
}
