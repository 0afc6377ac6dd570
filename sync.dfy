/**
 * The two-phase relay handler (`api/ai-sync.js`): method gate, validation,
 * phase-1 `set` of a fresh turn document, provider call, reply extraction,
 * phase-2 `update` of the same document, response. Every exception raised
 * inside the `try` becomes a 500 whose message falls back to
 * "Internal Server Error" when empty.
 */
module Sync {
  import opened Wrappers
  import opened Js
  import opened Extraction
  import opened Store
  import opened Http
  import opened Provider

  const USER_MESSAGES := "user_messages"
  const MISSING_FIELDS := "Missing userId or messageText"
  const INTERNAL_SERVER_ERROR := "Internal Server Error"

  /**
   * What the outside world decides for one request: the auto-id the store hands
   * out, the fate of the two writes, the provider's answer, and the ticks that
   * `Timestamp.now()` returns at each phase.
   */
  datatype Env = Env(
    autoId: string,
    createFate: Fate,
    answer: Answer,
    updateFate: Fate,
    createdAt: nat,
    respondedAt: nat)

  /** One request's reply, the store afterwards, and the prompts sent to the provider. */
  datatype Outcome = Outcome(reply: Reply, docs: Docs, prompts: seq<Json>)

  function TurnKey(env: Env): DocKey {
    DocKey(USER_MESSAGES, env.autoId)
  }

  /** The phase-1 record `{userId, messageText, timestamp}`. */
  function OpenTurn(userId: Json, messageText: Json, createdAt: nat): Doc {
    map["userId" := Data(userId), "messageText" := Data(messageText), "timestamp" := Stamp(createdAt)]
  }

  /** The phase-2 fields `{responseText, botTimestamp}`, written together. */
  function Completion(responseText: Json, respondedAt: nat): Doc {
    map["responseText" := Data(responseText), "botTimestamp" := Stamp(respondedAt)]
  }

  /** The catch block: status 500 with the message, or the fallback text when it is empty. */
  function ServerError(message: string): (r: Reply)
    ensures r.Sent? && r.status == 500 && r.payload.ErrorJson?
    ensures r.payload.error != ""
    ensures message != "" ==> r.payload.error == message
    ensures message == "" ==> r.payload.error == INTERNAL_SERVER_ERROR
  {
    Sent(500, ErrorJson(if message == "" then INTERNAL_SERVER_ERROR else message))
  }

  /** A POST whose body holds a truthy `userId` and a truthy `messageText`. */
  predicate Validated(req: Request) {
    && req.httpMethod == "POST"
    && req.body != JNull
    && Given(BodyField(req.body, "userId"))
    && Given(BodyField(req.body, "messageText"))
  }

  function UserId(req: Request): Json
    requires Validated(req)
  {
    BodyField(req.body, "userId").value
  }

  function MessageText(req: Request): Json
    requires Validated(req)
  {
    BodyField(req.body, "messageText").value
  }

  /** A turn record: required fields present, and the reply fields both present or both absent. */
  predicate WellFormedTurn(d: Doc) {
    && "userId" in d && "messageText" in d && "timestamp" in d
    && ("responseText" in d <==> "botTimestamp" in d)
  }

  predicate TurnsWellFormed(docs: Docs) {
    forall k :: k in docs && k.collection == USER_MESSAGES ==> WellFormedTurn(docs[k])
  }

  /** A turn that holds a reply. */
  predicate Completed(d: Doc) {
    "responseText" in d
  }

  /** The handler as a function of the store before the request. */
  function Handle(docs: Docs, req: Request, env: Env): (o: Outcome)
    // the method gate comes first and touches nothing
    ensures req.httpMethod == "OPTIONS" ==> o == Outcome(Sent(200, NoContent), docs, [])
    ensures req.httpMethod != "OPTIONS" && req.httpMethod != "POST" ==>
              o == Outcome(Sent(405, ErrorJson(METHOD_NOT_ALLOWED)), docs, [])
    // a null body makes the destructuring throw before the `try`
    ensures req.httpMethod == "POST" && req.body == JNull ==> o == Outcome(Escaped, docs, [])
    // validation: zero writes, zero provider calls
    ensures req.httpMethod == "POST" && req.body != JNull && !Validated(req) ==>
              o == Outcome(Sent(400, ErrorJson(MISSING_FIELDS)), docs, [])
    ensures o.docs != docs || o.prompts != [] ==> Validated(req)
    ensures Validated(req) ==> o == Relay(docs, req, env)
    // only the turn's own document is ever written, and nothing is deleted
    ensures forall k :: k in docs && k != TurnKey(env) ==> k in o.docs && o.docs[k] == docs[k]
    ensures docs.Keys <= o.docs.Keys <= docs.Keys + {TurnKey(env)}
    ensures TurnsWellFormed(docs) ==> TurnsWellFormed(o.docs)
  {
    if req.httpMethod == "OPTIONS" then
      Outcome(Sent(200, NoContent), docs, [])
    else if req.httpMethod != "POST" then
      Outcome(Sent(405, ErrorJson(METHOD_NOT_ALLOWED)), docs, [])
    else if req.body == JNull then
      Outcome(Escaped, docs, [])
    else if !Validated(req) then
      Outcome(Sent(400, ErrorJson(MISSING_FIELDS)), docs, [])
    else
      Relay(docs, req, env)
  }

  /** The `try` block of the handler, for a validated request. */
  function Relay(docs: Docs, req: Request, env: Env): (o: Outcome)
    requires Validated(req)
    // the provider is called at most once, with the message text, and only after phase 1 committed
    ensures o.prompts == if env.createFate.Commit? then [MessageText(req)] else []
    // a failed create: 500, no provider call, store unchanged
    ensures env.createFate.Reject? ==> o == Outcome(ServerError(env.createFate.message), docs, [])
    // a committed create: the rest runs against the store that now holds the open turn
    ensures env.createFate.Commit? ==>
              o == Reconcile(docs[TurnKey(env) := OpenTurn(UserId(req), MessageText(req), env.createdAt)], req, env)
    ensures forall k :: k in docs && k != TurnKey(env) ==> k in o.docs && o.docs[k] == docs[k]
    ensures o.docs.Keys == if env.createFate.Commit? then docs.Keys + {TurnKey(env)} else docs.Keys
    ensures TurnKey(env) in o.docs ==> TurnKey(env) in docs || WellFormedTurn(o.docs[TurnKey(env)])
  {
    var created := SetWrite(docs, TurnKey(env), OpenTurn(UserId(req), MessageText(req), env.createdAt), env.createFate);
    if created.error.Some? then
      Outcome(ServerError(created.error.value), created.docs, [])
    else
      Reconcile(created.docs, req, env)
  }

  /**
   * Provider call, extraction and phase-2 update, on a store that already
   * holds the turn's phase-1 record.
   */
  function Reconcile(docs: Docs, req: Request, env: Env): (o: Outcome)
    requires Validated(req)
    requires TurnKey(env) in docs && docs[TurnKey(env)] == OpenTurn(UserId(req), MessageText(req), env.createdAt)
    ensures o.prompts == [MessageText(req)]
    // a failed provider call: 500 and an orphaned turn without a reply
    ensures !env.answer.Ok? ==>
              o == Outcome(ServerError(FailureMessage(env.answer)), docs, [MessageText(req)])
              && !Completed(o.docs[TurnKey(env)])
    // a failed update: 500, the turn stays open
    ensures env.answer.Ok? && env.updateFate.Reject? ==>
              o == Outcome(ServerError(env.updateFate.message), docs, [MessageText(req)])
    // success exactly when both the call and the update succeeded
    ensures o.reply.Sent? && o.reply.payload.ResponseTextJson? <==> env.answer.Ok? && env.updateFate.Commit?
    ensures o.reply.Sent? && (o.reply.status == 200 <==> o.reply.payload.ResponseTextJson?)
    // a 200 reply is the extracted reply, and the same document now holds the same text
    ensures o.reply.Sent? && o.reply.payload.ResponseTextJson? ==>
              && env.answer.Ok?
              && o.reply.payload.responseText == GeminiReply(env.answer.data)
              && o.docs == docs[TurnKey(env) := docs[TurnKey(env)] + Completion(o.reply.payload.responseText, env.respondedAt)]
              && o.docs[TurnKey(env)]["responseText"] == Data(o.reply.payload.responseText)
    // the turn's own fields are kept, and no other document is touched
    ensures o.docs.Keys == docs.Keys
    ensures forall k :: k in docs && k != TurnKey(env) ==> o.docs[k] == docs[k]
    ensures WellFormedTurn(o.docs[TurnKey(env)])
  {
    var key := TurnKey(env);
    if !env.answer.Ok? then
      Outcome(ServerError(FailureMessage(env.answer)), docs, [MessageText(req)])
    else
      var responseText := GeminiReply(env.answer.data);
      var updated := UpdateWrite(docs, key, Completion(responseText, env.respondedAt), env.updateFate);
      if updated.error.Some? then
        Outcome(ServerError(updated.error.value), updated.docs, [MessageText(req)])
      else
        Outcome(Sent(200, ResponseTextJson(responseText)), updated.docs, [MessageText(req)])
  }

  /**
   * The success path in full: both writes commit and the provider answers, so
   * the reply is the extracted text and the turn is the phase-1 record with the
   * completion merged in.
   */
  lemma SuccessOutcome(docs: Docs, req: Request, env: Env)
    requires Validated(req) && env.createFate.Commit? && env.answer.Ok? && env.updateFate.Commit?
    ensures var reply := GeminiReply(env.answer.data);
            Handle(docs, req, env) == Outcome(
              Sent(200, ResponseTextJson(reply)),
              docs[TurnKey(env) := OpenTurn(UserId(req), MessageText(req), env.createdAt) + Completion(reply, env.respondedAt)],
              [MessageText(req)])
  {
    var created := docs[TurnKey(env) := OpenTurn(UserId(req), MessageText(req), env.createdAt)];
    assert created[TurnKey(env) := created[TurnKey(env)] + Completion(GeminiReply(env.answer.data), env.respondedAt)]
        == docs[TurnKey(env) := OpenTurn(UserId(req), MessageText(req), env.createdAt) + Completion(GeminiReply(env.answer.data), env.respondedAt)];
  }

  /** `{userId: "u1", messageText: "hello"}` answered "hi there": 200, and the turn holds both texts. */
  lemma HelloScenario(docs: Docs)
    requires DocKey(USER_MESSAGES, "t1") !in docs
    ensures var req := Request("POST", JObject(map["userId" := JString("u1"), "messageText" := JString("hello")]));
            var env := Env("t1", Commit, Ok(GeminiAnswer(JString("hi there"))), Commit, 1, 2);
            var o := Handle(docs, req, env);
            var key := DocKey(USER_MESSAGES, "t1");
            && o.reply == Sent(200, ResponseTextJson(JString("hi there")))
            && o.prompts == [JString("hello")]
            && o.docs.Keys == docs.Keys + {key}
            && o.docs[key]["messageText"] == Data(JString("hello"))
            && o.docs[key]["responseText"] == Data(JString("hi there"))
  {
    HelloOutcome(docs);
    HelloTurnFields();
  }

  const HELLO_TURN: Doc := OpenTurn(JString("u1"), JString("hello"), 1) + Completion(JString("hi there"), 2)

  lemma HelloOutcome(docs: Docs)
    ensures var req := Request("POST", JObject(map["userId" := JString("u1"), "messageText" := JString("hello")]));
            var env := Env("t1", Commit, Ok(GeminiAnswer(JString("hi there"))), Commit, 1, 2);
            Handle(docs, req, env) == Outcome(Sent(200, ResponseTextJson(JString("hi there"))),
                                              docs[DocKey(USER_MESSAGES, "t1") := HELLO_TURN], [JString("hello")])
  {
    var req := Request("POST", JObject(map["userId" := JString("u1"), "messageText" := JString("hello")]));
    var env := Env("t1", Commit, Ok(GeminiAnswer(JString("hi there"))), Commit, 1, 2);
    assert Validated(req);
    assert UserId(req) == JString("u1") && MessageText(req) == JString("hello");
    GeminiRoundTrip(JString("hi there"));
    SuccessOutcome(docs, req, env);
  }

  lemma HelloTurnFields()
    ensures HELLO_TURN["messageText"] == Data(JString("hello"))
    ensures HELLO_TURN["responseText"] == Data(JString("hi there"))
  {
  }

  /** `{userId: "", messageText: "hi"}`: 400, no write, no provider call. */
  lemma EmptyUserIdScenario(docs: Docs, env: Env)
    ensures var req := Request("POST", JObject(map["userId" := JString(""), "messageText" := JString("hi")]));
            Handle(docs, req, env) == Outcome(Sent(400, ErrorJson(MISSING_FIELDS)), docs, [])
  {
    var req := Request("POST", JObject(map["userId" := JString(""), "messageText" := JString("hi")]));
    assert !Validated(req);
  }

  /**
   * The handler run against a store object and a provider client, step by step
   * as the source does; its effect is exactly that of `Handle`.
   */
  method Serve(store: DocumentStore, provider: Client, req: Request, env: Env) returns (reply: Reply)
    modifies store, provider
    ensures var o := Handle(old(store.docs), req, env);
      && reply == o.reply
      && store.docs == o.docs
      && provider.sent == old(provider.sent) + o.prompts
  {
    if req.httpMethod == "OPTIONS" {
      return Sent(200, NoContent);
    }
    if req.httpMethod != "POST" {
      return Sent(405, ErrorJson(METHOD_NOT_ALLOWED));
    }
    if req.body == JNull {
      return Escaped;
    }
    var userId := BodyField(req.body, "userId");
    var messageText := BodyField(req.body, "messageText");
    if !Given(userId) || !Given(messageText) {
      return Sent(400, ErrorJson(MISSING_FIELDS));
    }
    // 1. phase-1 write of the fresh turn
    var key := TurnKey(env);
    var error := store.Set(key, OpenTurn(userId.value, messageText.value, env.createdAt), env.createFate);
    if error.Some? {
      return ServerError(error.value);
    }
    // 2. provider call
    var answer := provider.Generate(messageText.value, env.answer);
    if !answer.Ok? {
      return ServerError(FailureMessage(answer));
    }
    var responseText := GeminiReply(answer.data);
    // 3. phase-2 update of the same document
    error := store.Update(key, Completion(responseText, env.respondedAt), env.updateFate);
    if error.Some? {
      return ServerError(error.value);
    }
    // 4. respond
    reply := Sent(200, ResponseTextJson(responseText));
  }
}
