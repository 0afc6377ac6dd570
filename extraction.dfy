/**
 * Reply extraction: the pure expressions that pull the reply text out of the
 * provider's parsed JSON answer, with the placeholder each handler falls back to.
 */
module Extraction {
  import opened Wrappers
  import opened Js

  const NO_RESPONSE_FROM_AI := "No response from AI"
  const NO_AI_RESPONSE := "No AI response"

  /** `aiData?.candidates?.[0]?.content?.parts?.[0]?.text` (generateContent answers). */
  function GeminiPath(data: Json): Option<Json> {
    Member(First(Member(Member(First(Member(Some(data), "candidates")), "content"), "parts")), "text")
  }

  /** The reply text of ai-sync: the value at the path when truthy, else the placeholder. */
  function GeminiReply(data: Json): (r: Json)
    ensures Truthy(r)
    ensures Given(GeminiPath(data)) ==> r == GeminiPath(data).value
    ensures !Given(GeminiPath(data)) ==> r == JString(NO_RESPONSE_FROM_AI)
  {
    Or(GeminiPath(data), JString(NO_RESPONSE_FROM_AI))
  }

  /** `data?.candidates?.[0]?.output` (generateText answers). */
  function BisonPath(data: Json): Option<Json> {
    Member(First(Member(Some(data), "candidates")), "output")
  }

  /** The reply text of ai-response: the value at the path when truthy, else the placeholder. */
  function BisonReply(data: Json): (r: Json)
    ensures Truthy(r)
    ensures Given(BisonPath(data)) ==> r == BisonPath(data).value
    ensures !Given(BisonPath(data)) ==> r == JString(NO_AI_RESPONSE)
  {
    Or(BisonPath(data), JString(NO_AI_RESPONSE))
  }

  /** The answer shape `{candidates: [{content: {parts: [{text}]}}]}` with one candidate. */
  function GeminiAnswer(text: Json): Json {
    JObject(map["candidates" := JArray([
      JObject(map["content" := JObject(map["parts" := JArray([JObject(map["text" := text])])])])
    ])])
  }

  /** The answer shape `{candidates: [{output}]}` with one candidate. */
  function BisonAnswer(output: Json): Json {
    JObject(map["candidates" := JArray([JObject(map["output" := output])])])
  }

  /** Extraction inverts the answer shape: a truthy text comes back unchanged. */
  lemma GeminiRoundTrip(text: Json)
    ensures GeminiReply(GeminiAnswer(text)) == if Truthy(text) then text else JString(NO_RESPONSE_FROM_AI)
  {
  }

  lemma BisonRoundTrip(output: Json)
    ensures BisonReply(BisonAnswer(output)) == if Truthy(output) then output else JString(NO_AI_RESPONSE)
  {
  }

  /** Only the first candidate and its first part are read; later ones are ignored. */
  lemma GeminiReadsFirstCandidateOnly(first: Json, rest: seq<Json>, others: map<string, Json>)
    requires "candidates" !in others
    ensures GeminiReply(JObject(others["candidates" := JArray([first] + rest)]))
         == GeminiReply(JObject(map["candidates" := JArray([first])]))
  {
  }

  lemma BisonReadsFirstCandidateOnly(first: Json, rest: seq<Json>, others: map<string, Json>)
    requires "candidates" !in others
    ensures BisonReply(JObject(others["candidates" := JArray([first] + rest)]))
         == BisonReply(JObject(map["candidates" := JArray([first])]))
  {
  }

  /**
   * A full answer, with other members at every level and further candidates and
   * parts after the first, still yields its first candidate's first text.
   */
  lemma GeminiReplyOfFullAnswer(text: Json, top: map<string, Json>, cand: map<string, Json>,
                                content: map<string, Json>, part: map<string, Json>,
                                moreParts: seq<Json>, moreCands: seq<Json>)
    ensures Truthy(text) ==>
      GeminiReply(JObject(top["candidates" := JArray([
        JObject(cand["content" := JObject(content["parts" := JArray([JObject(part["text" := text])] + moreParts)])])
      ] + moreCands)])) == text
  {
  }

  lemma BisonReplyOfFullAnswer(output: Json, top: map<string, Json>, cand: map<string, Json>, moreCands: seq<Json>)
    ensures Truthy(output) ==>
      BisonReply(JObject(top["candidates" := JArray([JObject(cand["output" := output])] + moreCands)])) == output
  {
  }

  /** A well-formed answer with no candidates, or one that is not an object, degrades to the placeholder. */
  lemma EmptyOrForeignAnswersDegrade(data: Json)
    requires !data.JObject? || "candidates" !in data.members || data.members["candidates"] == JArray([])
    ensures GeminiReply(data) == JString(NO_RESPONSE_FROM_AI)
    ensures BisonReply(data) == JString(NO_AI_RESPONSE)
  {
  }

  /** An empty text at the path is falsy, so `||` also replaces it by the placeholder. */
  lemma EmptyTextDegrades()
    ensures GeminiReply(GeminiAnswer(JString(""))) == JString(NO_RESPONSE_FROM_AI)
    ensures BisonReply(BisonAnswer(JString(""))) == JString(NO_AI_RESPONSE)
  {
  }

  /** `candidates?.[0]` also reads the member "0" of an object, so this answer is accepted too. */
  lemma ObjectCandidatesAccepted(text: string)
    requires text != ""
    ensures BisonReply(JObject(map["candidates" := JObject(map["0" := JObject(map["output" := JString(text)])])]))
         == JString(text)
  {
  }
}
