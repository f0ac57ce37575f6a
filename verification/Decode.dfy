/** Decoding rendered templates into objects (operator/internal/render/render.go). */
module Decode {
  import opened Values
  import opened Sequences
  import Text

  type Document = map<string, Value>

  /** What the YAML decoder reads from a file: its documents in order, and whether it then fails instead
      of reaching the end. */
  datatype Scanned = Scanned(documents: seq<Document>, broken: bool)

  /** A typed object. */
  datatype Object = Object(kind: string, fields: Document)

  /** The libraries: the YAML decoder, and the scheme that types a document or refuses it. */
  datatype Libraries = Libraries(scan: string -> Scanned, typed: Document -> Option<Object>)

  datatype Result = Ok(objects: seq<Object>) | Err(file: string)

  function IsNonEmpty(): Document -> bool
  {
    (d: Document) => d != map[]
  }

  /** The documents of a file that have to become objects. */
  function DocumentsOf(lib: Libraries): string -> seq<Document>
  {
    (content: string) => if Text.TrimSpace(content) == "" then [] else Filter(IsNonEmpty(), lib.scan(content).documents)
  }

  function ObjectOf(lib: Libraries): Document -> seq<Object>
  {
    (d: Document) => if lib.typed(d).None? then [] else [lib.typed(d).value]
  }

  predicate Typable(lib: Libraries, documents: seq<Document>)
  {
    forall d :: d in documents && d != map[] ==> lib.typed(d).Some?
  }

  /** A file that decodes: blank, or read to its end with every non-empty document typed. */
  predicate Acceptable(lib: Libraries, content: string)
  {
    Text.TrimSpace(content) == "" || (!lib.scan(content).broken && Typable(lib, lib.scan(content).documents))
  }

  function Objects(lib: Libraries, contents: seq<string>): seq<Object>
  {
    FlatMap(ObjectOf(lib), FlatMap(DocumentsOf(lib), contents))
  }

  /** An order of visiting the map: each file once. */
  ghost predicate Visits(order: seq<string>, rendered: map<string, string>)
  {
    multiset(order) == multiset(rendered.Keys)
  }

  lemma VisitedFiles(order: seq<string>, rendered: map<string, string>)
    requires Visits(order, rendered)
    ensures forall name :: name in order <==> name in rendered
  {
    forall name ensures name in order <==> name in rendered {
      assert name in multiset(order) <==> name in multiset(rendered.Keys);
    }
  }

  function At(rendered: map<string, string>): string -> seq<string>
  {
    (name: string) => if name in rendered then [rendered[name]] else []
  }

  /** The files in the order of a visit. */
  function Contents(rendered: map<string, string>, order: seq<string>): seq<string>
  {
    FlatMap(At(rendered), order)
  }

  /** How many of the documents are not empty and become that object. */
  function Occurrences(lib: Libraries, documents: seq<Document>, o: Object): nat
  {
    if documents == [] then 0
    else
      (if documents[0] != map[] && lib.typed(documents[0]) == Some(o) then 1 else 0)
      + Occurrences(lib, documents[1..], o)
  }

  /** And over all files that are not blank. */
  function OccurrencesInFiles(lib: Libraries, rendered: map<string, string>, order: seq<string>, o: Object): nat
    requires forall name :: name in order ==> name in rendered
  {
    if order == [] then 0
    else
      (if Text.TrimSpace(rendered[order[0]]) == "" then 0
       else Occurrences(lib, lib.scan(rendered[order[0]]).documents, o))
      + OccurrencesInFiles(lib, rendered, order[1..], o)
  }

  function NonEmptyDocuments(documents: seq<Document>): nat
  {
    if documents == [] then 0 else (if documents[0] != map[] then 1 else 0) + NonEmptyDocuments(documents[1..])
  }

  lemma {:induction false} NonEmptyDocumentsCount(lib: Libraries, documents: seq<Document>)
    requires Typable(lib, documents)
    ensures |FlatMap(ObjectOf(lib), Filter(IsNonEmpty(), documents))| == NonEmptyDocuments(documents)
  {
    if documents != [] {
      var head, rest := [documents[0]], documents[1..];
      assert documents == head + rest;
      NonEmptyDocumentsCount(lib, rest);
      FilterConcat(IsNonEmpty(), head, rest);
      FlatMapConcat(ObjectOf(lib), Filter(IsNonEmpty(), head), Filter(IsNonEmpty(), rest));
      assert Filter(IsNonEmpty(), head) == if documents[0] == map[] then [] else head;
      FlatMapOne(ObjectOf(lib), documents[0]);
    }
  }

  lemma {:induction false} OccurrencesCount(lib: Libraries, documents: seq<Document>, o: Object)
    ensures multiset(FlatMap(ObjectOf(lib), Filter(IsNonEmpty(), documents)))[o] == Occurrences(lib, documents, o)
  {
    if documents != [] {
      var head, rest := [documents[0]], documents[1..];
      assert documents == head + rest;
      OccurrencesCount(lib, rest, o);
      FilterConcat(IsNonEmpty(), head, rest);
      FlatMapConcat(ObjectOf(lib), Filter(IsNonEmpty(), head), Filter(IsNonEmpty(), rest));
      assert Filter(IsNonEmpty(), head) == if documents[0] == map[] then [] else head;
      FlatMapOne(ObjectOf(lib), documents[0]);
    }
  }

  lemma {:induction false} FilesCount(
      lib: Libraries, rendered: map<string, string>, order: seq<string>, o: Object)
    requires forall name :: name in order ==> name in rendered
    ensures multiset(Objects(lib, Contents(rendered, order)))[o] == OccurrencesInFiles(lib, rendered, order, o)
  {
    if order != [] {
      var content := rendered[order[0]];
      FilesCount(lib, rendered, order[1..], o);
      FlatMapConcat(DocumentsOf(lib), [content], Contents(rendered, order[1..]));
      FlatMapOne(DocumentsOf(lib), content);
      FlatMapConcat(
        ObjectOf(lib), DocumentsOf(lib)(content), FlatMap(DocumentsOf(lib), Contents(rendered, order[1..])));
      assert At(rendered)(order[0]) == [content];
      OccurrencesCount(lib, lib.scan(content).documents, o);
    }
  }

  /** One file: documents are read until the end of the file, a failure to read, or a failure to type. */
  method DecodeFile(lib: Libraries, content: string) returns (objs: seq<Object>, ok: bool)
    ensures ok <==>
            || Text.TrimSpace(content) == ""
            || (&& !lib.scan(content).broken
                && forall d :: d in lib.scan(content).documents && d != map[] ==> lib.typed(d).Some?)
    ensures ok ==> objs == FlatMap(ObjectOf(lib), DocumentsOf(lib)(content))
    ensures ok ==>
              |objs| == if Text.TrimSpace(content) == "" then 0 else NonEmptyDocuments(lib.scan(content).documents)
  {
    objs := [];
    if Text.TrimSpace(content) == "" {
      return objs, true;
    }
    var scanned := lib.scan(content);
    for j := 0 to |scanned.documents|
      invariant Typable(lib, scanned.documents[..j])
      invariant objs == ObjectsUpTo(lib, scanned.documents, j)
    {
      var raw := scanned.documents[j];
      NextDocument(lib, scanned.documents, j);
      if raw == map[] {
        continue;
      }
      var typed := lib.typed(raw);
      if typed.None? {
        return objs, false;
      }
      objs := objs + [typed.value];
    }
    assert scanned.documents[..|scanned.documents|] == scanned.documents;
    NonEmptyDocumentsCount(lib, scanned.documents);
    ok := !scanned.broken;
  }

  /** All files, in any order of visiting the map. */
  method Decode(lib: Libraries, rendered: map<string, string>, order: seq<string>)
    returns (r: Result)
    requires Visits(order, rendered)
    ensures r.Ok? <==> forall name :: name in rendered ==> Acceptable(lib, rendered[name])
    ensures r.Ok? ==> r.objects == Objects(lib, Contents(rendered, order))
    ensures r.Err? ==> r.file in rendered && !Acceptable(lib, rendered[r.file])
  {
    VisitedFiles(order, rendered);
    var objs: seq<Object> := [];
    for i := 0 to |order|
      invariant forall name :: name in order[..i] ==> Acceptable(lib, rendered[name])
      invariant objs == Objects(lib, Contents(rendered, order[..i]))
    {
      var typed, ok := DecodeFile(lib, rendered[order[i]]);
      if !ok {
        return Err(order[i]);
      }
      assert order[..i + 1] == order[..i] + [order[i]];
      NextFile(lib, rendered, order, i);
      objs := objs + typed;
    }
    assert order[..|order|] == order;
    return Ok(objs);
  }

  lemma NextFile(lib: Libraries, rendered: map<string, string>, order: seq<string>, i: nat)
    requires i < |order| && order[i] in rendered
    ensures Objects(lib, Contents(rendered, order[..i + 1])) ==
            Objects(lib, Contents(rendered, order[..i])) + FlatMap(ObjectOf(lib), DocumentsOf(lib)(rendered[order[i]]))
  {
    var contents, content := Contents(rendered, order[..i]), rendered[order[i]];
    assert order[..i + 1] == order[..i] + [order[i]];
    FlatMapConcat(At(rendered), order[..i], [order[i]]);
    FlatMapOne(At(rendered), order[i]);
    FlatMapConcat(DocumentsOf(lib), contents, [content]);
    FlatMapOne(DocumentsOf(lib), content);
    FlatMapConcat(ObjectOf(lib), FlatMap(DocumentsOf(lib), contents), DocumentsOf(lib)(content));
  }

  function ObjectsUpTo(lib: Libraries, documents: seq<Document>, n: nat): seq<Object>
    requires n <= |documents|
  {
    FlatMap(ObjectOf(lib), Filter(IsNonEmpty(), documents[..n]))
  }

  lemma NextDocument(lib: Libraries, documents: seq<Document>, j: nat)
    requires j < |documents|
    ensures ObjectsUpTo(lib, documents, j + 1) ==
            ObjectsUpTo(lib, documents, j) + if documents[j] == map[] then [] else ObjectOf(lib)(documents[j])
  {
    assert documents[..j + 1] == documents[..j] + [documents[j]];
    FilterConcat(IsNonEmpty(), documents[..j], [documents[j]]);
    assert Filter(IsNonEmpty(), [documents[j]]) == if documents[j] == map[] then [] else [documents[j]];
    FlatMapConcat(ObjectOf(lib), Filter(IsNonEmpty(), documents[..j]), Filter(IsNonEmpty(), [documents[j]]));
  }

  // What decoding conserves

  /** The objects are the documents at these positions, in order and typed one by one, and of the first `n`
      documents they are all that are not empty. */
  ghost predicate Transcribes(
      lib: Libraries, documents: seq<Document>, n: nat, objs: seq<Object>, positions: seq<nat>)
    requires n <= |documents|
  {
    && |positions| == |objs|
    && (forall k :: 0 <= k < |objs| ==>
          && positions[k] < n && documents[positions[k]] != map[]
          && lib.typed(documents[positions[k]]) == Some(objs[k]))
    && (forall k, l :: 0 <= k < l < |positions| ==> positions[k] < positions[l])
    && (forall j: nat {:trigger j in positions} :: j < n && j !in positions ==> documents[j] == map[])
  }

  lemma TranscribesNext(
      lib: Libraries, documents: seq<Document>, n: nat, objs: seq<Object>, positions: seq<nat>, o: Object)
    requires n < |documents| && Transcribes(lib, documents, n, objs, positions)
    ensures documents[n] == map[] ==> Transcribes(lib, documents, n + 1, objs, positions)
    ensures documents[n] != map[] && lib.typed(documents[n]) == Some(o) ==>
              Transcribes(lib, documents, n + 1, objs + [o], positions + [n])
  {
    assert n in positions + [n];
    assert forall j :: j in positions ==> j in positions + [n];
  }

  lemma {:induction false} UpToTranscribes(lib: Libraries, documents: seq<Document>, n: nat)
    returns (positions: seq<nat>)
    requires n <= |documents| && Typable(lib, documents)
    ensures Transcribes(lib, documents, n, ObjectsUpTo(lib, documents, n), positions)
    decreases n
  {
    if n == 0 {
      positions := [];
    } else {
      var before := UpToTranscribes(lib, documents, n - 1);
      var d := documents[n - 1];
      NextDocument(lib, documents, n - 1);
      if d == map[] {
        TranscribesNext(lib, documents, n - 1, ObjectsUpTo(lib, documents, n - 1), before, Object("", map[]));
        positions := before;
      } else {
        TranscribesNext(lib, documents, n - 1, ObjectsUpTo(lib, documents, n - 1), before, lib.typed(d).value);
        positions := before + [n - 1];
      }
    }
  }

  /** What a file that decodes gives: nothing if it is blank, and otherwise its non-empty documents, each
      typed, in their order, and no other. */
  lemma FileTranscribes(lib: Libraries, content: string) returns (positions: seq<nat>)
    requires Acceptable(lib, content)
    ensures var objs := FlatMap(ObjectOf(lib), DocumentsOf(lib)(content));
            if Text.TrimSpace(content) == "" then objs == []
            else Transcribes(lib, lib.scan(content).documents, |lib.scan(content).documents|, objs, positions)
  {
    positions := [];
    if Text.TrimSpace(content) != "" {
      var documents := lib.scan(content).documents;
      positions := UpToTranscribes(lib, documents, |documents|);
      assert documents[..|documents|] == documents;
    }
  }

  /** When every file decodes, the objects are the typed non-empty documents of the files that are not
      blank, none dropped and none twice: each occurs as often as documents become it. Any other order of
      visiting the files gives the same objects, each as often. */
  lemma DocumentsAreConserved(
      lib: Libraries, rendered: map<string, string>, order: seq<string>, another: seq<string>, o: Object)
    requires Visits(order, rendered) && Visits(another, rendered)
    requires forall name :: name in rendered ==> Acceptable(lib, rendered[name])
    ensures forall name :: name in order + another ==> name in rendered
    ensures var objects := multiset(Objects(lib, Contents(rendered, order)));
            objects[o] == OccurrencesInFiles(lib, rendered, order, o) == OccurrencesInFiles(lib, rendered, another, o)
    ensures multiset(Objects(lib, Contents(rendered, order))) == multiset(Objects(lib, Contents(rendered, another)))
  {
    VisitedFiles(order, rendered);
    VisitedFiles(another, rendered);
    FilesCount(lib, rendered, order, o);
    FilesCount(lib, rendered, another, o);
    FlatMapPermutation(At(rendered), order, another);
    FlatMapPermutation(DocumentsOf(lib), Contents(rendered, order), Contents(rendered, another));
    FlatMapPermutation(
      ObjectOf(lib), FlatMap(DocumentsOf(lib), Contents(rendered, order)),
        FlatMap(DocumentsOf(lib), Contents(rendered, another)));
  }
}
