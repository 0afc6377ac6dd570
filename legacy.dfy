/**
 * The older single-phase handler (`api/ai-response.js`): POST gate (OPTIONS is
 * not special), `message`/`messageId` validation, provider call, extraction of
 * `candidates[0].output`, merge-write of `response_text` into the existing
 * document `messages/<messageId>`, response. Every exception inside the `try`
 * becomes a 500 carrying `error.message` with no fallback.
 *
 * As written, the file never imports `doc`, `db` or `setDoc`, so the write
 * step raises a ReferenceError; `HandleAsWritten` models that, and `Handle`
 * the handler with those bindings in place.
 */
module Legacy {
  import opened Wrappers
  import opened Js
  import opened Extraction
  import opened Store
  import opened Http
  import opened Provider
  import Sync

  const MESSAGES := "messages"
  const MISSING_FIELDS := "Message and messageId are required"
  /** The message of the ReferenceError raised by evaluating the unbound `doc`. */
  const DOC_NOT_DEFINED := "doc is not defined"

  /**
   * The provider's answer, the message `doc()` raises for an id it cannot turn
   * into a document reference, and the fate of the merge-write.
   */
  datatype Env = Env(answer: Answer, refError: string, mergeFate: Fate)

  datatype Outcome = Outcome(reply: Reply, docs: Docs, prompts: seq<Json>)

  /** A POST whose body holds a truthy `message` and a truthy `messageId`. */
  predicate Validated(req: Request) {
    && req.httpMethod == "POST"
    && req.body != JNull
    && Given(BodyField(req.body, "message"))
    && Given(BodyField(req.body, "messageId"))
  }

  function Message(req: Request): Json
    requires Validated(req)
  {
    BodyField(req.body, "message").value
  }

  function MessageId(req: Request): Json
    requires Validated(req)
  {
    BodyField(req.body, "messageId").value
  }

  /**
   * `doc(db, "messages", messageId)`: the path "messages" followed by the
   * id's non-empty "/"-separated pieces names a document when it has an even
   * number of segments; the last one is the document id, the rest its
   * collection path. An id that is not a string, holds "//", or leaves an odd
   * number of segments has no reference.
   */
  function DocRef(messageId: Json): (r: Option<DocKey>)
    ensures messageId.JString? && messageId.s != "" && '/' !in messageId.s ==>
              r == Some(DocKey(MESSAGES, messageId.s))
    ensures r.Some? <==>
              messageId.JString? && !HasDoubleSlash(messageId.s) && |Segments(messageId.s)| % 2 == 1
    ensures r.Some? ==> Under(r.value.collection, MESSAGES) && r.value.id != "" && '/' !in r.value.id
    ensures r.Some? ==> r.value.id == Segments(messageId.s)[|Segments(messageId.s)| - 1]
    ensures r.Some? && |Segments(messageId.s)| > 1 ==>
              r.value.collection == MESSAGES + "/" + Join(Segments(messageId.s)[..|Segments(messageId.s)| - 1])
  {
    if !messageId.JString? || HasDoubleSlash(messageId.s) then None
    else PathKey(Segments(messageId.s))
  }

  /** The key that "messages" followed by the pieces names, if their count is odd. */
  function PathKey(pieces: seq<string>): (r: Option<DocKey>)
    requires forall i :: 0 <= i < |pieces| ==> pieces[i] != "" && '/' !in pieces[i]
    ensures r.Some? <==> |pieces| % 2 == 1
    ensures r.Some? ==> Under(r.value.collection, MESSAGES) && r.value.id == pieces[|pieces| - 1]
    ensures |pieces| == 1 ==> r == Some(DocKey(MESSAGES, pieces[0]))
    ensures r.Some? && |pieces| > 1 ==> r.value.collection == MESSAGES + "/" + Join(pieces[..|pieces| - 1])
  {
    if |pieces| % 2 == 0 then None
    else
      var last := |pieces| - 1;
      if last == 0 then Some(DocKey(MESSAGES, pieces[last]))
      else
        UnderJoined(MESSAGES, Join(pieces[..last]));
        Some(DocKey(MESSAGES + "/" + Join(pieces[..last]), pieces[last]))
  }

  /** A leading or trailing "/" is dropped: both name the plain id's document. */
  lemma DocRefDropsEmptyPieces(id: string)
    requires id != "" && '/' !in id
    ensures DocRef(JString(id + "/")) == Some(DocKey(MESSAGES, id))
    ensures DocRef(JString("/" + id)) == Some(DocKey(MESSAGES, id))
  {
    SegmentsCons(id, "");
    assert id + "/" + "" == id + "/";
    assert Segments("") == [];
    assert Segments("/" + id) == [id] by {
      assert ("/" + id)[1..] == id;
    }
    NoDoubleSlashJoin(id, "");
    assert ("/" + id)[1..] == id;
  }

  /** Two more pieces name the document `z` of the nested collection `messages/x/y`. */
  lemma DocRefNested(x: string, y: string, z: string)
    requires x != "" && '/' !in x && y != "" && '/' !in y && z != "" && '/' !in z
    ensures DocRef(JString(x + "/" + y + "/" + z)) == Some(DocKey(MESSAGES + "/" + x + "/" + y, z))
  {
    var id := x + "/" + y + "/" + z;
    NestedPieces(x, y, z);
    var pieces := Segments(id);
    assert pieces[..2] == [x, y] && [x, y][1..] == [y];
    assert Join(pieces[..2]) == x + "/" + y;
    assert MESSAGES + "/" + x + "/" + y == MESSAGES + "/" + (x + "/" + y);
  }

  lemma NestedPieces(x: string, y: string, z: string)
    requires x != "" && '/' !in x && y != "" && '/' !in y && z != "" && '/' !in z
    ensures Segments(x + "/" + y + "/" + z) == [x, y, z]
    ensures !HasDoubleSlash(x + "/" + y + "/" + z)
  {
    var tail := y + "/" + z;
    assert x + "/" + y + "/" + z == x + "/" + tail;
    SegmentsCons(y, z);
    assert Segments(tail) == [y, z];
    SegmentsCons(x, tail);
    assert [x] + [y, z] == [x, y, z];
    NoDoubleSlashJoin(y, z);
    assert tail[0] == y[0];
    NoDoubleSlashJoin(x, tail);
  }

  /** One extra piece leaves an odd number of segments, and "//" is refused outright. */
  lemma DocRefRefused(x: string, y: string)
    requires x != "" && '/' !in x && y != "" && '/' !in y
    ensures DocRef(JString(x + "/" + y)) == None
    ensures DocRef(JString(x + "//" + y)) == None
    ensures forall n: int :: DocRef(JInt(n)) == None
  {
    SegmentsCons(x, y);
    assert (x + "//" + y)[|x|] == '/' && (x + "//" + y)[|x| + 1] == '/';
  }

  /** The catch block: status 500 with `error.message` as it is, even when empty. */
  function ServerError(message: string): (r: Reply)
    ensures r.Sent? && r.status == 500 && r.payload.ErrorJson?
    ensures r.payload.error == message
  {
    Sent(500, ErrorJson(message))
  }

  /** The gate and validation, shared by both forms of the handler. */
  function Reject(req: Request): (r: Option<Reply>)
    ensures r.None? <==> Validated(req)
    ensures req.httpMethod != "POST" ==> r == Some(Sent(405, ErrorJson(METHOD_NOT_ALLOWED)))
    ensures req.httpMethod == "POST" && req.body == JNull ==> r == Some(Escaped)
    ensures req.httpMethod == "POST" && req.body != JNull && !Validated(req) ==>
              r == Some(Sent(400, ErrorJson(MISSING_FIELDS)))
  {
    if req.httpMethod != "POST" then Some(Sent(405, ErrorJson(METHOD_NOT_ALLOWED)))
    else if req.body == JNull then Some(Escaped)
    else if !Validated(req) then Some(Sent(400, ErrorJson(MISSING_FIELDS)))
    else None
  }

  /** The handler exactly as written: the write step always raises a ReferenceError. */
  function HandleAsWritten(docs: Docs, req: Request, env: Env): (o: Outcome)
    ensures o.docs == docs
    ensures o.prompts == if Validated(req) then [Message(req)] else []
    ensures !Validated(req) ==> o.reply == Reject(req).value
    ensures Validated(req) && !env.answer.Ok? ==> o.reply == ServerError(FailureMessage(env.answer))
    ensures Validated(req) && env.answer.Ok? ==> o.reply == ServerError(DOC_NOT_DEFINED)
    ensures o.reply.Sent? ==> o.reply.status != 200
  {
    if !Validated(req) then
      Outcome(Reject(req).value, docs, [])
    else if !env.answer.Ok? then
      Outcome(ServerError(FailureMessage(env.answer)), docs, [Message(req)])
    else
      Outcome(ServerError(DOC_NOT_DEFINED), docs, [Message(req)])
  }

  /** The handler with `doc`, `db` and `setDoc` bound to the store. */
  function Handle(docs: Docs, req: Request, env: Env): (o: Outcome)
    // gate and validation: no provider call, store unchanged
    ensures !Validated(req) ==> o == Outcome(Reject(req).value, docs, [])
    ensures req.httpMethod == "OPTIONS" ==> o.reply == Sent(405, ErrorJson(METHOD_NOT_ALLOWED))
    // the provider is called once per validated request, with the message, before any write
    ensures o.prompts == if Validated(req) then [Message(req)] else []
    ensures Validated(req) && !env.answer.Ok? ==>
              o == Outcome(ServerError(FailureMessage(env.answer)), docs, [Message(req)])
    // the reference and the write can each fail, leaving the store unchanged
    ensures Validated(req) && env.answer.Ok? && DocRef(MessageId(req)).None? ==>
              o.reply == ServerError(env.refError) && o.docs == docs
    ensures Validated(req) && env.answer.Ok? && DocRef(MessageId(req)).Some? && env.mergeFate.Reject? ==>
              o.reply == ServerError(env.mergeFate.message) && o.docs == docs
    // success exactly when every step succeeded; then the reply is the stored `response_text`
    ensures o.reply.Sent? && o.reply.status == 200 <==>
              Validated(req) && env.answer.Ok? && DocRef(MessageId(req)).Some? && env.mergeFate.Commit?
    ensures o.reply.Sent? && o.reply.status == 200 ==>
              && o.reply.payload == ResponseJson(BisonReply(env.answer.data))
              && var key := DocRef(MessageId(req)).value;
                 && key in o.docs
                 && MergedInto(o.docs[key], if key in docs then docs[key] else map[],
                               map["response_text" := Data(o.reply.payload.response)])
                 && o.docs[key]["response_text"] == Data(o.reply.payload.response)
    // no other document, and no document outside `messages`, is touched
    ensures forall k :: k in docs && (!Validated(req) || Some(k) != DocRef(MessageId(req))) ==>
              k in o.docs && o.docs[k] == docs[k]
    ensures docs.Keys <= o.docs.Keys
    ensures o.docs.Keys <= docs.Keys + (if Validated(req) && DocRef(MessageId(req)).Some? then {DocRef(MessageId(req)).value} else {})
    ensures forall k :: k in o.docs && k !in docs ==> Under(k.collection, MESSAGES)
    ensures forall k :: k in docs && !Under(k.collection, MESSAGES) ==> k in o.docs && o.docs[k] == docs[k]
    // the catch block keeps an empty message as it is
    ensures Validated(req) && env.answer.Throws? && env.answer.message == "" ==>
              o.reply == Sent(500, ErrorJson(""))
  {
    if !Validated(req) then
      Outcome(Reject(req).value, docs, [])
    else if !env.answer.Ok? then
      Outcome(ServerError(FailureMessage(env.answer)), docs, [Message(req)])
    else
      var aiResponse := BisonReply(env.answer.data);
      var ref := DocRef(MessageId(req));
      if ref.None? then
        Outcome(ServerError(env.refError), docs, [Message(req)])
      else
        var written := MergeWrite(docs, ref.value, map["response_text" := Data(aiResponse)], env.mergeFate);
        if written.error.Some? then
          Outcome(ServerError(written.error.value), written.docs, [Message(req)])
        else
          Outcome(Sent(200, ResponseJson(aiResponse)), written.docs, [Message(req)])
  }

  /** Unlike ai-sync's catch block, this one has no fallback text for an empty message. */
  lemma CatchKeepsEmptyMessage()
    ensures ServerError("") == Sent(500, ErrorJson(""))
    ensures Sync.ServerError("") == Sent(500, ErrorJson(Sync.INTERNAL_SERVER_ERROR))
  {
  }

  /** The two forms agree on every request except one whose provider call succeeded. */
  lemma AsWrittenAgreesBeforeTheWrite(docs: Docs, req: Request, env: Env)
    requires !(Validated(req) && env.answer.Ok?)
    ensures HandleAsWritten(docs, req, env) == Handle(docs, req, env)
  {
  }

  /** A request that the corrected handler answers with 200 and that the code as written answers with 500. */
  lemma AsWrittenFailsAfterProviderSuccess()
    ensures var req := Request("POST", JObject(map["message" := JString("hello"), "messageId" := JString("m1")]));
            var env := Env(Ok(BisonAnswer(JString("hi there"))), "", Commit);
            && HandleAsWritten(map[], req, env).reply == Sent(500, ErrorJson(DOC_NOT_DEFINED))
            && Handle(map[], req, env).reply == Sent(200, ResponseJson(JString("hi there")))
            && Handle(map[], req, env).docs == map[DocKey(MESSAGES, "m1") := map["response_text" := Data(JString("hi there"))]]
  {
    var req := Request("POST", JObject(map["message" := JString("hello"), "messageId" := JString("m1")]));
    assert Validated(req);
    assert '/' !in "m1";
    assert DocRef(JString("m1")) == Some(DocKey(MESSAGES, "m1"));
    BisonRoundTrip(JString("hi there"));
    var fields: Doc := map["response_text" := Data(JString("hi there"))];
    assert map[] + fields == fields;
  }

  /**
   * The handler run against a store object and a provider client, with the
   * bindings in place; its effect is exactly that of `Handle`.
   */
  method Serve(store: DocumentStore, provider: Client, req: Request, env: Env) returns (reply: Reply)
    modifies store, provider
    ensures var o := Handle(old(store.docs), req, env);
      && reply == o.reply
      && store.docs == o.docs
      && provider.sent == old(provider.sent) + o.prompts
  {
    if req.httpMethod != "POST" {
      return Sent(405, ErrorJson(METHOD_NOT_ALLOWED));
    }
    if req.body == JNull {
      return Escaped;
    }
    var message := BodyField(req.body, "message");
    var messageId := BodyField(req.body, "messageId");
    if !Given(message) || !Given(messageId) {
      return Sent(400, ErrorJson(MISSING_FIELDS));
    }
    var answer := provider.Generate(message.value, env.answer);
    if !answer.Ok? {
      return ServerError(FailureMessage(answer));
    }
    var aiResponse := BisonReply(answer.data);
    var ref := DocRef(messageId.value);
    if ref.None? {
      return ServerError(env.refError);
    }
    var error := store.Merge(ref.value, map["response_text" := Data(aiResponse)], env.mergeFate);
    if error.Some? {
      return ServerError(error.value);
    }
    reply := Sent(200, ResponseJson(aiResponse));
  }
}
