/**
 * The document store as the handlers use it: documents keyed by collection and
 * id, each a map from field name to a stored value. The three writes the
 * handlers issue (`set`, `update`, and `setDoc` with `merge: true`) are given
 * as pure functions and as methods of a store object that applies them in place.
 * Whether the backend commits a write is an injected `Fate`.
 */
module Store {
  import opened Wrappers
  import opened Js

  datatype DocKey = DocKey(collection: string, id: string)

  /** A stored field: a JSON value written by a handler, or a server timestamp tick. */
  datatype Field = Data(value: Json) | Stamp(tick: nat)

  type Doc = map<string, Field>
  type Docs = map<DocKey, Doc>

  /** How the backend answers one write: committed, or rejected with an error message. */
  datatype Fate = Commit | Reject(message: string)

  /** The error (if any) a write reports, and the documents after it. */
  datatype Write = Write(error: Option<string>, docs: Docs)

  /** The message of the rejection raised by `update` on a document that does not exist. */
  const NOT_FOUND_MESSAGE := "NOT_FOUND: No document to update"

  /** `ref.set(data)`: replaces (or creates) the whole document. */
  function SetWrite(docs: Docs, key: DocKey, data: Doc, fate: Fate): (w: Write)
    ensures w.error.None? <==> fate.Commit?
    ensures fate.Reject? ==> w == Write(Some(fate.message), docs)
    ensures fate.Commit? ==> key in w.docs && w.docs[key] == data && w.docs.Keys == docs.Keys + {key}
    ensures forall k :: k in docs && k != key ==> k in w.docs && w.docs[k] == docs[k]
  {
    match fate
    case Commit => Write(None, docs[key := data])
    case Reject(m) => Write(Some(m), docs)
  }

  /** `ref.update(fields)`: merges the fields into an existing document, fails on a missing one. */
  function UpdateWrite(docs: Docs, key: DocKey, fields: Doc, fate: Fate): (w: Write)
    ensures w.error.None? <==> key in docs && fate.Commit?
    ensures key !in docs ==> w == Write(Some(NOT_FOUND_MESSAGE), docs)
    ensures key in docs && fate.Reject? ==> w == Write(Some(fate.message), docs)
    ensures w.docs.Keys == docs.Keys
    ensures w.error.None? ==> MergedInto(w.docs[key], docs[key], fields)
    ensures forall k :: k in docs && k != key ==> w.docs[k] == docs[k]
  {
    if key !in docs then Write(Some(NOT_FOUND_MESSAGE), docs)
    else match fate
      case Commit => Write(None, docs[key := docs[key] + fields])
      case Reject(m) => Write(Some(m), docs)
  }

  /** `setDoc(ref, fields, {merge: true})`: merges the fields, creating the document if absent. */
  function MergeWrite(docs: Docs, key: DocKey, fields: Doc, fate: Fate): (w: Write)
    ensures w.error.None? <==> fate.Commit?
    ensures fate.Reject? ==> w == Write(Some(fate.message), docs)
    ensures fate.Commit? ==> w.docs.Keys == docs.Keys + {key}
    ensures fate.Commit? ==> MergedInto(w.docs[key], if key in docs then docs[key] else map[], fields)
    ensures forall k :: k in docs && k != key ==> k in w.docs && w.docs[k] == docs[k]
  {
    match fate
    case Commit => Write(None, docs[key := (if key in docs then docs[key] else map[]) + fields])
    case Reject(m) => Write(Some(m), docs)
  }

  /**
   * `after` is `before` with `fields` merged in: every written field holds its
   * new value, every other field of `before` is unchanged, and nothing else appears.
   */
  predicate MergedInto(after: Doc, before: Doc, fields: Doc) {
    && after.Keys == before.Keys + fields.Keys
    && (forall f :: f in fields ==> after[f] == fields[f])
    && (forall f :: f in before && f !in fields ==> after[f] == before[f])
  }

  /**
   * Document paths as the client library parses them: each path argument is
   * split on "/" and its empty pieces dropped; an argument holding "//" is refused.
   */
  predicate HasDoubleSlash(s: string) {
    exists i :: 0 <= i < |s| - 1 && s[i] == '/' && s[i + 1] == '/'
  }

  /** The length of the leading piece of `s` up to its first "/". */
  function PieceLength(s: string): (n: nat)
    ensures n <= |s|
    ensures forall i :: 0 <= i < n ==> s[i] != '/'
    ensures n < |s| ==> s[n] == '/'
    decreases |s|
  {
    if s == [] || s[0] == '/' then 0 else 1 + PieceLength(s[1..])
  }

  /** `s.split("/").filter(p => p.length > 0)`. */
  function Segments(s: string): (r: seq<string>)
    ensures forall i :: 0 <= i < |r| ==> r[i] != "" && '/' !in r[i]
    ensures (s != "" && '/' !in s) ==> r == [s]
    ensures '/' !in s ==> |r| <= 1
    decreases |s|
  {
    if s == [] then []
    else if s[0] == '/' then Segments(s[1..])
    else
      var n := PieceLength(s);
      assert s[..n] != "" && '/' !in s[..n];
      assert '/' !in s ==> n == |s| && s[..n] == s && s[n..] == [];
      [s[..n]] + Segments(s[n..])
  }

  /** The segments joined by "/". */
  function Join(segments: seq<string>): string
    decreases |segments|
  {
    if segments == [] then ""
    else if |segments| == 1 then segments[0]
    else segments[0] + "/" + Join(segments[1..])
  }

  /** A collection path below `root`: `root` itself or a path that starts with `root/`. */
  predicate Under(collection: string, root: string) {
    collection == root || (|root| < |collection| && collection[..|root| + 1] == root + "/")
  }

  lemma UnderJoined(root: string, rest: string)
    ensures Under(root + "/" + rest, root)
  {
    assert (root + "/" + rest)[..|root| + 1] == root + "/";
  }

  /** Splitting a plain piece followed by "/" keeps the piece and splits the rest. */
  lemma SegmentsCons(x: string, rest: string)
    requires x != "" && '/' !in x
    ensures Segments(x + "/" + rest) == [x] + Segments(rest)
  {
    var s := x + "/" + rest;
    PieceLengthOfPiece(x, rest);
    assert s[..|x|] == x && s[|x|..] == "/" + rest && ("/" + rest)[1..] == rest;
  }

  lemma {:induction false} PieceLengthOfPiece(x: string, rest: string)
    requires '/' !in x
    ensures PieceLength(x + "/" + rest) == |x|
    decreases |x|
  {
    if x != "" {
      assert (x + "/" + rest)[1..] == x[1..] + "/" + rest;
      PieceLengthOfPiece(x[1..], rest);
    }
  }

  /** A plain piece, "/", and a rest that neither starts with "/" nor holds "//", hold no "//". */
  lemma NoDoubleSlashJoin(x: string, rest: string)
    requires '/' !in x && (rest == "" || rest[0] != '/') && !HasDoubleSlash(rest)
    ensures !HasDoubleSlash(x + "/" + rest)
  {
    var s := x + "/" + rest;
    forall i | 0 <= i < |s| - 1
      ensures !(s[i] == '/' && s[i + 1] == '/')
    {
      if i < |x| {
        assert s[i] == x[i];
      } else if i == |x| {
        assert s[i + 1] == rest[0];
      } else {
        assert s[i] == rest[i - |x| - 1] && s[i + 1] == rest[i - |x|];
      }
    }
  }

  /** The store object; each method applies one write to `docs` in place. */
  class DocumentStore {
    var docs: Docs

    constructor (initial: Docs)
      ensures docs == initial
    {
      docs := initial;
    }

    method Set(key: DocKey, data: Doc, fate: Fate) returns (error: Option<string>)
      modifies this
      ensures Write(error, docs) == SetWrite(old(docs), key, data, fate)
    {
      match fate {
        case Commit =>
          docs := docs[key := data];
          error := None;
        case Reject(m) =>
          error := Some(m);
      }
    }

    method Update(key: DocKey, fields: Doc, fate: Fate) returns (error: Option<string>)
      modifies this
      ensures Write(error, docs) == UpdateWrite(old(docs), key, fields, fate)
    {
      if key !in docs {
        error := Some(NOT_FOUND_MESSAGE);
        return;
      }
      match fate {
        case Commit =>
          docs := docs[key := docs[key] + fields];
          error := None;
        case Reject(m) =>
          error := Some(m);
      }
    }

    method Merge(key: DocKey, fields: Doc, fate: Fate) returns (error: Option<string>)
      modifies this
      ensures Write(error, docs) == MergeWrite(old(docs), key, fields, fate)
    {
      match fate {
        case Commit =>
          var before := if key in docs then docs[key] else map[];
          docs := docs[key := before + fields];
          error := None;
        case Reject(m) =>
          error := Some(m);
      }
    }
  }
}
