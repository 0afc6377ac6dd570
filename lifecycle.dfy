/**
 * The life of turn records across any sequence of independent requests to
 * either handler. Each request writes at most its own fresh turn (or, for the
 * legacy handler, a document of another collection), so a turn is changed only
 * by the request that created it: a completed turn is terminal and an orphaned
 * one is never repaired. Store-assigned ids are taken to be fresh (`FreshIds`);
 * `IdCollisionReopensTurn` shows what that assumption rules out.
 */
module Lifecycle {
  import opened Js
  import opened Store
  import opened Http
  import Sync
  import Legacy
  import Provider

  datatype Step =
    | SyncCall(req: Request, syncEnv: Sync.Env)
    | LegacyCall(req: Request, legacyEnv: Legacy.Env)

  /** The turn collection is not below the legacy handler's collection. */
  lemma TurnsOutsideMessages()
    ensures !Under(Sync.USER_MESSAGES, Legacy.MESSAGES)
  {
    assert Sync.USER_MESSAGES[0] == 'u' && (Legacy.MESSAGES + "/")[0] == 'm';
    assert Sync.USER_MESSAGES[..|Legacy.MESSAGES| + 1][0] == 'u';
  }

  /** The store after one request. */
  function Apply(docs: Docs, step: Step): (r: Docs)
    ensures forall k :: k in docs && k.collection == Sync.USER_MESSAGES && step.LegacyCall? ==> k in r && r[k] == docs[k]
    ensures forall k :: k in r && k !in docs && step.LegacyCall? ==> k.collection != Sync.USER_MESSAGES
  {
    TurnsOutsideMessages();
    match step
    case SyncCall(req, env) => Sync.Handle(docs, req, env).docs
    case LegacyCall(req, env) => Legacy.Handle(docs, req, env).docs
  }

  /** The store after the requests, one after another. */
  function Run(docs: Docs, steps: seq<Step>): (r: Docs)
    ensures Sync.TurnsWellFormed(docs) ==> Sync.TurnsWellFormed(r)
    ensures docs.Keys <= r.Keys
    decreases |steps|
  {
    if steps == [] then docs else Run(Apply(docs, steps[0]), steps[1..])
  }

  /** The auto-ids handed to the ai-sync requests, in order. */
  function AutoIds(steps: seq<Step>): seq<string>
    decreases |steps|
  {
    if steps == [] then []
    else (if steps[0].SyncCall? then [steps[0].syncEnv.autoId] else []) + AutoIds(steps[1..])
  }

  /** Every auto-id is distinct from the others and names no turn already stored. */
  predicate FreshIds(docs: Docs, steps: seq<Step>) {
    var ids := AutoIds(steps);
    && (forall i, j :: 0 <= i < j < |ids| ==> ids[i] != ids[j])
    && (forall i :: 0 <= i < |ids| ==> DocKey(Sync.USER_MESSAGES, ids[i]) !in docs)
  }

  /** One request leaves the remaining auto-ids fresh. */
  lemma {:induction false} FreshIdsTail(docs: Docs, steps: seq<Step>)
    requires steps != [] && FreshIds(docs, steps)
    ensures FreshIds(Apply(docs, steps[0]), steps[1..])
  {
    var ids, rest := AutoIds(steps), AutoIds(steps[1..]);
    var shift := if steps[0].SyncCall? then 1 else 0;
    assert ids == ids[..shift] + rest;
    forall i | 0 <= i < |rest|
      ensures rest[i] == ids[i + shift]
    {
    }
    var after := Apply(docs, steps[0]);
    forall i | 0 <= i < |rest|
      ensures DocKey(Sync.USER_MESSAGES, rest[i]) !in after
    {
      var key := DocKey(Sync.USER_MESSAGES, rest[i]);
      assert key !in docs;
      if steps[0].SyncCall? {
        assert ids[0] == steps[0].syncEnv.autoId;
        assert rest[i] != ids[0];
      }
    }
  }

  /** After any prefix of the requests, the auto-ids of the rest are still fresh. */
  lemma {:induction false} FreshIdsSuffix(docs: Docs, steps: seq<Step>, n: nat)
    requires n <= |steps| && FreshIds(docs, steps)
    ensures FreshIds(Run(docs, steps[..n]), steps[n..])
    decreases n
  {
    if n == 0 {
      assert steps[..0] == [] && steps[0..] == steps;
    } else {
      FreshIdsTail(docs, steps);
      FreshIdsSuffix(Apply(docs, steps[0]), steps[1..], n - 1);
      assert steps[..n][1..] == steps[1..][..n - 1];
      assert steps[1..][n - 1..] == steps[n..];
    }
  }

  /** Running a sequence is running a prefix, then the rest from where it left off. */
  lemma {:induction false} RunSplit(docs: Docs, steps: seq<Step>, n: nat)
    requires n <= |steps|
    ensures Run(docs, steps) == Run(Run(docs, steps[..n]), steps[n..])
    decreases n
  {
    if n == 0 {
      assert steps[..0] == [] && steps[0..] == steps;
    } else {
      RunSplit(Apply(docs, steps[0]), steps[1..], n - 1);
      assert steps[..n][1..] == steps[1..][..n - 1];
      assert steps[1..][n - 1..] == steps[n..];
    }
  }

  /**
   * A turn already in the store is never changed by later requests: a
   * completed turn stays completed with the same reply, and an orphaned turn
   * stays without one.
   */
  lemma {:induction false} EarlierTurnsUntouched(docs: Docs, steps: seq<Step>, k: DocKey)
    requires FreshIds(docs, steps)
    requires k in docs && k.collection == Sync.USER_MESSAGES
    ensures k in Run(docs, steps) && Run(docs, steps)[k] == docs[k]
    decreases |steps|
  {
    if steps != [] {
      var after := Apply(docs, steps[0]);
      if steps[0].SyncCall? {
        assert AutoIds(steps)[0] == steps[0].syncEnv.autoId;
        assert Sync.TurnKey(steps[0].syncEnv) != k;
      }
      assert k in after && after[k] == docs[k];
      FreshIdsTail(docs, steps);
      EarlierTurnsUntouched(after, steps[1..], k);
    }
  }

  /** Running one request more than a prefix applies that request to the prefix's store. */
  lemma RunOneMore(docs: Docs, steps: seq<Step>, i: nat)
    requires i < |steps|
    ensures Run(docs, steps[..i + 1]) == Apply(Run(docs, steps[..i]), steps[i])
  {
    RunSplit(docs, steps[..i + 1], i);
    assert steps[..i + 1][..i] == steps[..i];
    assert steps[..i + 1][i..] == [steps[i]];
    assert [steps[i]][1..] == [];
  }

  /** A turn present after some prefix of the requests is, at the end, just as it was then. */
  lemma TurnKeptToTheEnd(docs: Docs, steps: seq<Step>, n: nat, key: DocKey)
    requires FreshIds(docs, steps)
    requires n <= |steps| && key.collection == Sync.USER_MESSAGES && key in Run(docs, steps[..n])
    ensures key in Run(docs, steps) && Run(docs, steps)[key] == Run(docs, steps[..n])[key]
  {
    RunSplit(docs, steps, n);
    FreshIdsSuffix(docs, steps, n);
    EarlierTurnsUntouched(Run(docs, steps[..n]), steps[n..], key);
  }

  /**
   * A 200 from an ai-sync request anywhere in the sequence is durable: at the
   * end, that request's turn still holds exactly the reply it returned.
   */
  lemma SuccessIsDurable(docs: Docs, steps: seq<Step>, i: nat, responseText: Json)
    requires FreshIds(docs, steps)
    requires i < |steps| && steps[i].SyncCall?
    ensures Sync.Handle(Run(docs, steps[..i]), steps[i].req, steps[i].syncEnv).reply
            == Sent(200, ResponseTextJson(responseText)) ==>
            var key := Sync.TurnKey(steps[i].syncEnv);
            && key in Run(docs, steps)
            && Sync.Completed(Run(docs, steps)[key])
            && Run(docs, steps)[key]["responseText"] == Data(responseText)
  {
    var key := Sync.TurnKey(steps[i].syncEnv);
    var before := Run(docs, steps[..i]);
    if Sync.Handle(before, steps[i].req, steps[i].syncEnv).reply == Sent(200, ResponseTextJson(responseText)) {
      var after := Run(docs, steps[..i + 1]);
      assert key in after && after[key]["responseText"] == Data(responseText) by {
        RunOneMore(docs, steps, i);
      }
      TurnKeptToTheEnd(docs, steps, i + 1, key);
    }
  }

  /** Without fresh ids, a later request's phase-1 `set` would overwrite a completed turn. */
  lemma IdCollisionReopensTurn()
    ensures var key := DocKey(Sync.USER_MESSAGES, "t1");
            var done := Sync.OpenTurn(JString("u1"), JString("hello"), 1) + Sync.Completion(JString("hi there"), 2);
            var req := Request("POST", JObject(map["userId" := JString("u2"), "messageText" := JString("hey")]));
            var env := Sync.Env("t1", Commit, Provider.NotOk("quota"), Commit, 3, 4);
            && Sync.Completed(done)
            && !Sync.Completed(Run(map[key := done], [SyncCall(req, env)])[key])
  {
    var req := Request("POST", JObject(map["userId" := JString("u2"), "messageText" := JString("hey")]));
    var env := Sync.Env("t1", Commit, Provider.NotOk("quota"), Commit, 3, 4);
    assert Sync.Validated(req);
    assert [SyncCall(req, env)][1..] == [];
  }
}
