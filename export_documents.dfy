/**
 * `exportDocuments` of `src/export/index.ts`: each document is exported in
 * turn, the directory it was exported to being recorded under the document's
 * name; then every recorded directory is listed into a project.
 *
 * The exporter and `fs.readdir` are oracles: `None` stands for a rejected
 * promise. The record is a JavaScript object, so it is modelled as the
 * sequence of its entries in insertion order; assigning an existing key
 * updates that entry where it is. The record is a plain `{}`, so assigning
 * the key `__proto__` runs the setter inherited from `Object.prototype`,
 * which ignores a string and stores no entry.
 */
module BatchExport {
  import opened Wrappers
  import opened Paths
  import opened ProjectFiles

  /** An entry of the `exports` record: a document name and the directory its tracks were exported to. */
  datatype Export = Export(name: string, dir: string)

  /** The position of the entry for `name`, if there is one. */
  function IndexOf(exports: seq<Export>, name: string): (r: Option<nat>)
    ensures r.Some? ==> r.value < |exports| && exports[r.value].name == name &&
                        forall j :: 0 <= j < r.value ==> exports[j].name != name
    ensures r.None? ==> forall j :: 0 <= j < |exports| ==> exports[j].name != name
  {
    if exports == [] then None
    else if exports[0].name == name then Some(0)
    else match IndexOf(exports[1..], name)
      case Some(k) => Some(k + 1)
      case None => None
  }

  /** `exports[name]`: the directory recorded for `name`, if any. */
  function Lookup(exports: seq<Export>, name: string): Option<string>
  {
    match IndexOf(exports, name)
    case Some(i) => Some(exports[i].dir)
    case None => None
  }

  /** The one key a plain object does not store on assignment of a string. */
  const ProtoKey: string := "__proto__"

  /** `exports[name] = dir`; assigning `__proto__` is a no-op. */
  function Record(exports: seq<Export>, name: string, dir: string): seq<Export>
  {
    if name == ProtoKey then exports
    else match IndexOf(exports, name)
    case Some(i) => exports[i := Export(name, dir)]
    case None => exports + [Export(name, dir)]
  }

  /** No two entries share a name, as in any object. */
  predicate UniqueNames(exports: seq<Export>)
  {
    forall i, j :: 0 <= i < j < |exports| ==> exports[i].name != exports[j].name
  }

  /** One pass of the loop over `document`: a rejected export leaves the record as it was. */
  function ExportStep(exports: seq<Export>, document: string, cwd: string, exporter: string -> Option<string>): seq<Export>
  {
    var absPath := Resolve(cwd, document);
    match exporter(absPath)
    case Some(dir) => Record(exports, Name(absPath), dir)
    case None => exports
  }

  /** The record after the loop over `documents`, in order. */
  function ExportsOf(documents: seq<string>, cwd: string, exporter: string -> Option<string>): seq<Export>
  {
    if documents == [] then []
    else ExportStep(ExportsOf(documents[..|documents| - 1], cwd, exporter), documents[|documents| - 1], cwd, exporter)
  }

  /**
   * The reference: the directory of the last document named `name` whose
   * export succeeded, skipping documents named `__proto__`.
   */
  function LastExport(documents: seq<string>, cwd: string, exporter: string -> Option<string>, name: string): Option<string>
  {
    if documents == [] then None
    else
      var absPath := Resolve(cwd, documents[|documents| - 1]);
      if exporter(absPath).Some? && Name(absPath) == name && name != ProtoKey then exporter(absPath)
      else LastExport(documents[..|documents| - 1], cwd, exporter, name)
  }

  // ---------------------------------------------------------------------------
  // The record

  lemma IndexOfSameNames(a: seq<Export>, b: seq<Export>, name: string)
    requires |a| == |b| && forall j :: 0 <= j < |a| ==> a[j].name == b[j].name
    ensures IndexOf(a, name) == IndexOf(b, name)
  {
  }

  lemma {:induction false} IndexOfAppend(exports: seq<Export>, e: Export, name: string)
    ensures IndexOf(exports + [e], name) ==
            (if IndexOf(exports, name).Some? then IndexOf(exports, name)
             else if e.name == name then Some(|exports|) else None)
  {
    if exports == [] {
      assert exports + [e] == [e];
    } else if exports[0].name != name {
      assert (exports + [e])[1..] == exports[1..] + [e];
      IndexOfAppend(exports[1..], e, name);
    }
  }

  /**
   * After `exports[name] = dir`, `name` reads `dir` and every other name reads
   * what it did; after assigning `__proto__`, every name reads what it did.
   */
  lemma RecordLookup(exports: seq<Export>, name: string, dir: string, other: string)
    ensures Lookup(Record(exports, name, dir), other) ==
            (if other == name && name != ProtoKey then Some(dir) else Lookup(exports, other))
  {
    var r := Record(exports, name, dir);
    if name == ProtoKey {
    } else {
      match IndexOf(exports, name)
      case Some(i) =>
        IndexOfSameNames(exports, r, other);
      case None =>
        IndexOfAppend(exports, Export(name, dir), other);
    }
  }

  /** Assigning a key keeps the names unique, and adds an entry only for a new name other than `__proto__`. */
  lemma RecordUnique(exports: seq<Export>, name: string, dir: string)
    requires UniqueNames(exports)
    ensures UniqueNames(Record(exports, name, dir))
    ensures |Record(exports, name, dir)| == |exports| + (if name == ProtoKey || IndexOf(exports, name).Some? then 0 else 1)
  {
  }

  // ---------------------------------------------------------------------------
  // The loop against the reference

  /** The record has one entry per name, and no more entries than there are documents. */
  lemma {:induction false} ExportsUnique(documents: seq<string>, cwd: string, exporter: string -> Option<string>)
    ensures UniqueNames(ExportsOf(documents, cwd, exporter))
    ensures |ExportsOf(documents, cwd, exporter)| <= |documents|
    decreases |documents|
  {
    if documents != [] {
      var init := documents[..|documents| - 1];
      ExportsUnique(init, cwd, exporter);
      var absPath := Resolve(cwd, documents[|documents| - 1]);
      if exporter(absPath).Some? {
        RecordUnique(ExportsOf(init, cwd, exporter), Name(absPath), exporter(absPath).value);
      }
    }
  }

  /** Every name reads the directory of the last successful export of a document with that name. */
  lemma {:induction false} ExportsLookup(documents: seq<string>, cwd: string, exporter: string -> Option<string>, name: string)
    ensures Lookup(ExportsOf(documents, cwd, exporter), name) == LastExport(documents, cwd, exporter, name)
    decreases |documents|
  {
    if documents != [] {
      var init := documents[..|documents| - 1];
      ExportsLookup(init, cwd, exporter, name);
      var absPath := Resolve(cwd, documents[|documents| - 1]);
      if exporter(absPath).Some? {
        RecordLookup(ExportsOf(init, cwd, exporter), Name(absPath), exporter(absPath).value, name);
      }
    }
  }

  /** A name other than `__proto__` is recorded exactly when some document with that name was exported. */
  lemma {:induction false} LastExportSome(documents: seq<string>, cwd: string, exporter: string -> Option<string>, name: string)
    ensures LastExport(documents, cwd, exporter, name).Some? <==>
            name != ProtoKey &&
            exists i :: 0 <= i < |documents| && exporter(Resolve(cwd, documents[i])).Some? &&
                        Name(Resolve(cwd, documents[i])) == name
    decreases |documents|
  {
    if documents != [] {
      var init := documents[..|documents| - 1];
      LastExportSome(init, cwd, exporter, name);
      assert forall i :: 0 <= i < |init| ==> init[i] == documents[i];
    }
  }

  /** No entry is ever named `__proto__`: such a document leaves no project behind. */
  lemma {:induction false} ProtoKeyNeverRecorded(documents: seq<string>, cwd: string, exporter: string -> Option<string>)
    ensures forall i :: 0 <= i < |ExportsOf(documents, cwd, exporter)| ==> ExportsOf(documents, cwd, exporter)[i].name != ProtoKey
  {
    var exports := ExportsOf(documents, cwd, exporter);
    ExportsLookup(documents, cwd, exporter, ProtoKey);
    LastExportSome(documents, cwd, exporter, ProtoKey);
    assert Lookup(exports, ProtoKey).None?;
  }

  /** A document whose export is rejected changes nothing, wherever it stands. */
  lemma {:induction false} RejectedDocumentIgnored(a: seq<string>, document: string, b: seq<string>,
                                                   cwd: string, exporter: string -> Option<string>)
    requires exporter(Resolve(cwd, document)).None?
    ensures ExportsOf(a + [document] + b, cwd, exporter) == ExportsOf(a + b, cwd, exporter)
    decreases |b|
  {
    if b == [] {
      assert (a + [document] + b)[..|a| ] == a;
      assert a + b == a;
    } else {
      var b0 := b[..|b| - 1];
      RejectedDocumentIgnored(a, document, b0, cwd, exporter);
      assert (a + [document] + b)[..|a + [document] + b| - 1] == a + [document] + b0;
      assert (a + b)[..|a + b| - 1] == a + b0;
    }
  }

  // ---------------------------------------------------------------------------
  // The projects

  /** `files.map((file) => path.join(directory, file))`. */
  function JoinAll(directory: string, files: seq<string>): (r: seq<string>)
    ensures |r| == |files|
    ensures forall k :: 0 <= k < |files| ==> r[k] == Join(directory, files[k])
  {
    if files == [] then [] else JoinAll(directory, files[..|files| - 1]) + [Join(directory, files[|files| - 1])]
  }

  /** The projects built from the record: `None` when any listing is rejected. */
  function ProjectsOf(exports: seq<Export>, readdir: string -> Option<seq<string>>): Option<seq<Project>>
  {
    if exports == [] then Some([])
    else
      var e := exports[|exports| - 1];
      match (ProjectsOf(exports[..|exports| - 1], readdir), readdir(e.dir))
      case (Some(projects), Some(files)) => Some(projects + [Project(e.name, JoinAll(e.dir, files))])
      case _ => None
  }

  /**
   * The projects are there exactly when every directory could be listed; then
   * there is one per entry of the record, in its order, named by its key, with
   * the directory joined to each listed entry, in listing order.
   */
  lemma {:induction false} ProjectsOfEntries(exports: seq<Export>, readdir: string -> Option<seq<string>>)
    ensures ProjectsOf(exports, readdir).Some? <==> forall i :: 0 <= i < |exports| ==> readdir(exports[i].dir).Some?
    ensures ProjectsOf(exports, readdir).Some? ==>
              var projects := ProjectsOf(exports, readdir).value;
              |projects| == |exports| &&
              forall i :: 0 <= i < |exports| ==>
                projects[i] == Project(exports[i].name, JoinAll(exports[i].dir, readdir(exports[i].dir).value))
    decreases |exports|
  {
    if exports != [] {
      var init := exports[..|exports| - 1];
      ProjectsOfEntries(init, readdir);
      assert forall i :: 0 <= i < |init| ==> init[i] == exports[i];
    }
  }

  // ---------------------------------------------------------------------------
  // The method

  /**
   * `exportDocuments`: the documents are exported one after the other, each
   * through its path resolved against `cwd`, a rejection being swallowed;
   * the projects are then built from the record.
   */
  method ExportDocuments(documents: seq<string>, cwd: string, exporter: string -> Option<string>,
                         readdir: string -> Option<seq<string>>)
    returns (projects: Option<seq<Project>>, requested: seq<string>)
    ensures |requested| == |documents|
    ensures forall i :: 0 <= i < |documents| ==> requested[i] == Resolve(cwd, documents[i])
    ensures projects == ProjectsOf(ExportsOf(documents, cwd, exporter), readdir)
  {
    var exports: seq<Export> := [];
    requested := [];
    var i := 0;
    while i < |documents|
      invariant 0 <= i <= |documents|
      invariant exports == ExportsOf(documents[..i], cwd, exporter)
      invariant requested == Requests(documents[..i], cwd)
    {
      ExportsOfPrefix(documents, i, cwd, exporter);
      ghost var before := exports;
      var absPath := Resolve(cwd, documents[i]);
      var name := Name(absPath);
      requested := requested + [absPath];
      var directory := exporter(absPath);
      if directory.Some? {
        exports := Record(exports, name, directory.value);
      }
      assert exports == ExportStep(before, documents[i], cwd, exporter);
      i := i + 1;
    }
    assert documents[..i] == documents;
    projects := ProjectsOf(exports, readdir);
    forall k | 0 <= k < |documents|
      ensures requested[k] == Resolve(cwd, documents[k])
    {
      RequestsAt(documents, cwd, k);
    }
  }

  /** The paths handed to the exporter, one per document, in order. */
  function Requests(documents: seq<string>, cwd: string): (r: seq<string>)
    ensures |r| == |documents|
  {
    if documents == [] then [] else Requests(documents[..|documents| - 1], cwd) + [Resolve(cwd, documents[|documents| - 1])]
  }

  lemma {:induction false} RequestsAt(documents: seq<string>, cwd: string, k: nat)
    requires k < |documents|
    ensures Requests(documents, cwd)[k] == Resolve(cwd, documents[k])
    decreases |documents|
  {
    if k < |documents| - 1 {
      RequestsAt(documents[..|documents| - 1], cwd, k);
    }
  }

  lemma ExportsOfPrefix(documents: seq<string>, i: nat, cwd: string, exporter: string -> Option<string>)
    requires i < |documents|
    ensures ExportsOf(documents[..i + 1], cwd, exporter) ==
            ExportStep(ExportsOf(documents[..i], cwd, exporter), documents[i], cwd, exporter)
    ensures Requests(documents[..i + 1], cwd) == Requests(documents[..i], cwd) + [Resolve(cwd, documents[i])]
  {
    assert documents[..i + 1][..i] == documents[..i];
  }

  /** There are never more projects than documents. */
  lemma ProjectsAtMostDocuments(documents: seq<string>, cwd: string, exporter: string -> Option<string>,
                                readdir: string -> Option<seq<string>>)
    requires ProjectsOf(ExportsOf(documents, cwd, exporter), readdir).Some?
    ensures |ProjectsOf(ExportsOf(documents, cwd, exporter), readdir).value| <= |documents|
  {
    ExportsUnique(documents, cwd, exporter);
    ProjectsOfEntries(ExportsOf(documents, cwd, exporter), readdir);
  }
}
