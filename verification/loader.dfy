/**
 * `loadJsonFilesFromDir`: a depth-first walk that collects every `.json` file
 * that parses and turns every one that does not into a warning, never aborting.
 */
module Loader {
  import opened Wrappers
  import opened Json
  import opened FsTree

  /** A logged parse failure: the file's path and the error. */
  datatype Warning = Warning(path: string, error: string)

  datatype Loaded = Loaded(docs: seq<Json>, warnings: seq<Warning>)

  /** Why a run aborts. */
  datatype Fatal =
    | NotADirectory(path: string)   // `readdirSync` of a file
    | IsADirectory(path: string)    // `readFileSync` of a directory, outside any `try`
    | Unparseable(path: string, error: string)  // `JSON.parse` outside any `try`
    | TypeError(path: string)       // property access on null, `Object.keys(null)`, `.sort` of a non-array

  /** What the loop over `entries` has collected once it has seen them all. */
  function LoadEntries(dir: string, entries: seq<Entry>): Loaded
    decreases entries
  {
    if entries == [] then Loaded([], [])
    else
      var prev := LoadEntries(dir, entries[..|entries| - 1]);
      var e := entries[|entries| - 1];
      var path := Join(dir, e.name);
      if e.Dir? then
        var sub := LoadEntries(path, e.children);
        Loaded(prev.docs + sub.docs, prev.warnings + sub.warnings)
      else if EndsWith(e.name, ".json") then
        match e.content
        case Parsed(doc) => Loaded(prev.docs + [doc], prev.warnings)
        case Malformed(err) => Loaded(prev.docs, prev.warnings + [Warning(path, err)])
      else prev
  }

  /** The recursive walk over the children of a directory. */
  method LoadChildren(dir: string, entries: seq<Entry>) returns (r: Loaded)
    ensures r == LoadEntries(dir, entries)
    decreases entries
  {
    var docs: seq<Json> := [];
    var warnings: seq<Warning> := [];
    var i := 0;
    while i < |entries|
      invariant 0 <= i <= |entries|
      invariant Loaded(docs, warnings) == LoadEntries(dir, entries[..i])
    {
      var e := entries[i];
      assert entries[..i + 1][..i] == entries[..i];
      var fullPath := Join(dir, e.name);
      if e.Dir? {
        var sub := LoadChildren(fullPath, e.children);
        docs := docs + sub.docs;
        warnings := warnings + sub.warnings;
      } else if EndsWith(e.name, ".json") {
        match e.content
        case Parsed(doc) =>
          docs := docs + [doc];
        case Malformed(err) =>
          warnings := warnings + [Warning(fullPath, err)];
      }
      i := i + 1;
    }
    assert entries[..i] == entries;
    r := Loaded(docs, warnings);
  }

  /**
   * `loadJsonFilesFromDir(dir)` where `node` is what exists at `dir`: nothing
   * yields no documents; a plain file makes `readdirSync` throw.
   */
  method LoadJsonFilesFromDir(dir: string, node: Option<Entry>) returns (r: Result<Loaded, Fatal>)
    ensures node.None? ==> r == Success(Loaded([], []))
    ensures node.Some? && node.value.File? ==> r == Failure(NotADirectory(dir))
    ensures node.Some? && node.value.Dir? ==> r == Success(LoadEntries(dir, node.value.children))
  {
    if node.None? {
      return Success(Loaded([], []));
    }
    if node.value.File? {
      return Failure(NotADirectory(dir));
    }
    var loaded := LoadChildren(dir, node.value.children);
    return Success(loaded);
  }

  // ----- an independent description of what the walk finds -----

  /** A `.json` file found at any depth, with its path. */
  datatype Found = Found(path: string, content: Content)

  /** Every `.json` file under `entries`, depth first, in listing order. */
  function JsonFiles(dir: string, entries: seq<Entry>): seq<Found>
    decreases entries
  {
    if entries == [] then []
    else
      var e := entries[0];
      var path := Join(dir, e.name);
      var here :=
        if e.Dir? then JsonFiles(path, e.children)
        else if EndsWith(e.name, ".json") then [Found(path, e.content)]
        else [];
      here + JsonFiles(dir, entries[1..])
  }

  /** The documents of the files that parsed, in order. */
  function ParsedDocs(files: seq<Found>): seq<Json>
  {
    if files == [] then []
    else (if files[0].content.Parsed? then [files[0].content.doc] else []) + ParsedDocs(files[1..])
  }

  /** One warning per file that did not parse, in order. */
  function FailedFiles(files: seq<Found>): seq<Warning>
  {
    if files == [] then []
    else
      (if files[0].content.Malformed? then [Warning(files[0].path, files[0].content.error)] else [])
      + FailedFiles(files[1..])
  }

  lemma {:induction false} JsonFilesAppend(dir: string, a: seq<Entry>, b: seq<Entry>)
    ensures JsonFiles(dir, a + b) == JsonFiles(dir, a) + JsonFiles(dir, b)
    decreases a
  {
    if a != [] {
      assert (a + b)[0] == a[0] && (a + b)[1..] == a[1..] + b;
      JsonFilesAppend(dir, a[1..], b);
    } else {
      assert a + b == b;
    }
  }

  lemma {:induction false} ParsedDocsAppend(a: seq<Found>, b: seq<Found>)
    ensures ParsedDocs(a + b) == ParsedDocs(a) + ParsedDocs(b)
  {
    if a == [] {
      assert a + b == b;
    } else {
      assert (a + b)[0] == a[0] && (a + b)[1..] == a[1..] + b;
      ParsedDocsAppend(a[1..], b);
    }
  }

  lemma {:induction false} FailedFilesAppend(a: seq<Found>, b: seq<Found>)
    ensures FailedFiles(a + b) == FailedFiles(a) + FailedFiles(b)
  {
    if a == [] {
      assert a + b == b;
    } else {
      assert (a + b)[0] == a[0] && (a + b)[1..] == a[1..] + b;
      FailedFilesAppend(a[1..], b);
    }
  }

  /** The `.json` files a single entry contributes. */
  lemma JsonFilesOfOne(dir: string, e: Entry)
    ensures JsonFiles(dir, [e]) ==
      if e.Dir? then JsonFiles(Join(dir, e.name), e.children)
      else if EndsWith(e.name, ".json") then [Found(Join(dir, e.name), e.content)]
      else []
  {
    assert [e][1..] == [];
    assert JsonFiles(dir, [e][1..]) == [];
  }

  /** Splitting off the last entry of the listing. */
  lemma JsonFilesLast(dir: string, entries: seq<Entry>)
    requires entries != []
    ensures JsonFiles(dir, entries) == JsonFiles(dir, entries[..|entries| - 1]) + JsonFiles(dir, [entries[|entries| - 1]])
  {
    var n := |entries|;
    assert entries == entries[..n - 1] + [entries[n - 1]];
    JsonFilesAppend(dir, entries[..n - 1], [entries[n - 1]]);
  }

  /** The walk returns exactly the documents of the `.json` files at any depth that parse, depth first. */
  lemma {:induction false} LoadEntriesFindsAllJsonFiles(dir: string, entries: seq<Entry>)
    ensures LoadEntries(dir, entries).docs == ParsedDocs(JsonFiles(dir, entries))
    decreases entries
  {
    if entries != [] {
      var n := |entries|;
      var init, e := entries[..n - 1], entries[n - 1];
      LoadEntriesFindsAllJsonFiles(dir, init);
      JsonFilesLast(dir, entries);
      JsonFilesOfOne(dir, e);
      ParsedDocsAppend(JsonFiles(dir, init), JsonFiles(dir, [e]));
      if e.Dir? {
        LoadEntriesFindsAllJsonFiles(Join(dir, e.name), e.children);
      } else if EndsWith(e.name, ".json") {
        assert ParsedDocs([Found(Join(dir, e.name), e.content)])
          == (if e.content.Parsed? then [e.content.doc] else []) + ParsedDocs([]);
      }
    }
  }

  /** ... and one warning, with its path, for each `.json` file that does not parse. */
  lemma {:induction false} LoadEntriesWarnsOfEveryFailure(dir: string, entries: seq<Entry>)
    ensures LoadEntries(dir, entries).warnings == FailedFiles(JsonFiles(dir, entries))
    decreases entries
  {
    if entries != [] {
      var n := |entries|;
      var init, e := entries[..n - 1], entries[n - 1];
      LoadEntriesWarnsOfEveryFailure(dir, init);
      JsonFilesLast(dir, entries);
      JsonFilesOfOne(dir, e);
      FailedFilesAppend(JsonFiles(dir, init), JsonFiles(dir, [e]));
      if e.Dir? {
        LoadEntriesWarnsOfEveryFailure(Join(dir, e.name), e.children);
      } else if EndsWith(e.name, ".json") {
        assert FailedFiles([Found(Join(dir, e.name), e.content)])
          == (if e.content.Malformed? then [Warning(Join(dir, e.name), e.content.error)] else []) + FailedFiles([]);
      }
    }
  }

  lemma {:induction false} ParsedDocsCount(files: seq<Found>)
    ensures |ParsedDocs(files)| + |FailedFiles(files)| == |files|
    ensures forall d :: d in ParsedDocs(files) <==> exists i :: 0 <= i < |files| && files[i].content == Parsed(d)
  {
    if files != [] {
      ParsedDocsCount(files[1..]);
      forall d ensures d in ParsedDocs(files) <==> exists i :: 0 <= i < |files| && files[i].content == Parsed(d) {
        if d in ParsedDocs(files[1..]) {
          var i :| 0 <= i < |files[1..]| && files[1..][i].content == Parsed(d);
          assert files[i + 1].content == Parsed(d);
        }
        if exists i :: 0 <= i < |files| && files[i].content == Parsed(d) {
          var i :| 0 <= i < |files| && files[i].content == Parsed(d);
          if i > 0 {
            assert files[1..][i - 1].content == Parsed(d);
          }
        }
      }
    }
  }

  /**
   * Nothing is lost: every `.json` file under the directory yields either a
   * document or a warning, so one corrupt file among N good ones yields N documents.
   */
  lemma LoadedAccountsForEveryJsonFile(dir: string, entries: seq<Entry>)
    ensures |LoadEntries(dir, entries).docs| + |LoadEntries(dir, entries).warnings| == |JsonFiles(dir, entries)|
    ensures forall d :: d in LoadEntries(dir, entries).docs <==>
      exists i :: 0 <= i < |JsonFiles(dir, entries)| && JsonFiles(dir, entries)[i].content == Parsed(d)
  {
    LoadEntriesFindsAllJsonFiles(dir, entries);
    LoadEntriesWarnsOfEveryFailure(dir, entries);
    ParsedDocsCount(JsonFiles(dir, entries));
  }
}
