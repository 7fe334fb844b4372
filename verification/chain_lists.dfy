/**
 * `buildAddresses` and `buildTokens`: one output file per chain directory that
 * holds at least one document, its documents sorted by a display key, and the
 * total number of documents as the builder's count.
 */
module ChainLists {
  import opened Wrappers
  import opened Json
  import opened JsParseInt
  import opened FsTree
  import opened Loader
  import opened Sorting
  import opened Output

  datatype ListDomain = AddressList | TokenList

  function DirName(list: ListDomain): string
  {
    match list
    case AddressList => "addresses"
    case TokenList => "tokens"
  }

  function Domain(list: ListDomain): ChainDomain
  {
    match list
    case AddressList => AddressesDomain
    case TokenList => TokensDomain
  }

  /** `(a.label as string) || (a.address as string) || ""`, compared as a string. */
  function AddressKey(doc: Json): (k: SortKey)
    ensures Truthy(Field(doc, "label")) ==> k == Text(ToJsString(Field(doc, "label")))
    ensures !Truthy(Field(doc, "label")) && Truthy(Field(doc, "address")) ==> k == Text(ToJsString(Field(doc, "address")))
    ensures !Truthy(Field(doc, "label")) && !Truthy(Field(doc, "address")) ==> k == Text("")
  {
    Text(ToJsString(OrElse(OrElse(Field(doc, "label"), Field(doc, "address")), Some(JStr("")))))
  }

  /** `(a.name as string) || ""`, compared as a string. */
  function NameKey(doc: Json): (k: SortKey)
    ensures Truthy(Field(doc, "name")) ==> k == Text(ToJsString(Field(doc, "name")))
    ensures !Truthy(Field(doc, "name")) ==> k == Text("")
  {
    Text(ToJsString(OrElse(Field(doc, "name"), Some(JStr("")))))
  }

  function ListKey(list: ListDomain): Json -> SortKey
  {
    match list
    case AddressList => AddressKey
    case TokenList => NameKey
  }

  /**
   * A sort of two or more elements reads a property of every one of them, and
   * reading a property of `null` throws.
   */
  predicate SortThrows(docs: seq<Json>)
  {
    |docs| >= 2 && JNull in docs
  }

  /** A directory whose name `parseInt` reads as a number. */
  predicate IsChainDir(e: Entry)
  {
    e.Dir? && ParseInt(e.name).Some?
  }

  /** The documents loaded from one chain directory. */
  function ChainDocs(dir: string, e: Entry): seq<Json>
    requires e.Dir?
  {
    LoadEntries(Join(dir, e.name), e.children).docs
  }

  /** The state of the loop over chain directories. */
  datatype Acc = Acc(files: map<OutPath, OutDoc>, total: nat, warnings: seq<Warning>)

  /** One iteration of the loop over chain directories. */
  function Step(list: ListDomain, dir: string, acc: Acc, e: Entry, now: string): Result<Acc, Fatal>
  {
    if !IsChainDir(e) then Success(acc)
    else
      var chainId := ParseInt(e.name).value;
      var loaded := LoadEntries(Join(dir, e.name), e.children);
      var warnings := acc.warnings + loaded.warnings;
      var docs := loaded.docs;
      if |docs| == 0 then Success(acc.(warnings := warnings))
      else if SortThrows(docs) then Failure(TypeError(Join(dir, e.name)))
      else
        var items := SortBy(docs, ListKey(list));
        var doc := ChainList(chainId, now, |items|, items);
        Success(Acc(acc.files[ChainFile(Domain(list), chainId) := doc], acc.total + |docs|, warnings))
  }

  /** The loop over the entries of `data/<domain>`, in listing order. */
  function Fold(list: ListDomain, dir: string, entries: seq<Entry>, now: string): Result<Acc, Fatal>
  {
    if entries == [] then Success(Acc(map[], 0, []))
    else
      match Fold(list, dir, entries[..|entries| - 1], now)
      case Failure(f) => Failure(f)
      case Success(acc) => Step(list, dir, acc, entries[|entries| - 1], now)
  }

  /** The whole builder: a missing domain directory writes nothing and counts 0. */
  function ChainListsSpec(list: ListDomain, root: seq<Entry>, now: string): Result<Built, Fatal>
  {
    var dir := "data/" + DirName(list);
    match Find(root, DirName(list))
    case None => Success(Built(map[], 0, []))
    case Some(File(_, _)) => Failure(NotADirectory(dir))
    case Some(Dir(_, chains)) =>
      match Fold(list, dir, chains, now)
      case Failure(f) => Failure(f)
      case Success(acc) => Success(Built(acc.files, acc.total, acc.warnings))
  }

  lemma {:induction false} FoldFailurePersists(list: ListDomain, dir: string, entries: seq<Entry>, i: nat, now: string)
    requires i <= |entries| && Fold(list, dir, entries[..i], now).Failure?
    ensures Fold(list, dir, entries, now) == Fold(list, dir, entries[..i], now)
    decreases |entries| - i
  {
    if i < |entries| {
      assert entries[..i + 1][..i] == entries[..i];
      FoldFailurePersists(list, dir, entries, i + 1, now);
    } else {
      assert entries[..i] == entries;
    }
  }

  /** The body of the loop for one entry of `data/<domain>`. */
  method BuildChain(list: ListDomain, dir: string, acc: Acc, chainDir: Entry, now: string) returns (r: Result<Acc, Fatal>)
    ensures r == Step(list, dir, acc, chainDir, now)
  {
    if !chainDir.Dir? {
      return Success(acc);
    }
    var chainId := ParseInt(chainDir.name);
    if chainId.None? {
      return Success(acc);
    }
    var chainPath := Join(dir, chainDir.name);
    var loaded := LoadChildren(chainPath, chainDir.children);
    var warnings := acc.warnings + loaded.warnings;
    if |loaded.docs| == 0 {
      return Success(acc.(warnings := warnings));
    }
    if SortThrows(loaded.docs) {
      return Failure(TypeError(chainPath));
    }
    var items := SortBy(loaded.docs, ListKey(list));
    var output := ChainList(chainId.value, now, |items|, items);
    return Success(Acc(acc.files[ChainFile(Domain(list), chainId.value) := output], acc.total + |loaded.docs|, warnings));
  }

  method BuildChainLists(list: ListDomain, root: seq<Entry>, now: string) returns (r: Result<Built, Fatal>)
    ensures r == ChainListsSpec(list, root, now)
  {
    var name := DirName(list);
    var dir := "data/" + name;
    var node := Find(root, name);
    if node.None? {
      return Success(Built(map[], 0, []));
    }
    if node.value.File? {
      return Failure(NotADirectory(dir));
    }
    var chains := node.value.children;
    var acc := Acc(map[], 0, []);
    var i := 0;
    while i < |chains|
      invariant 0 <= i <= |chains|
      invariant Fold(list, dir, chains[..i], now) == Success(acc)
    {
      assert chains[..i + 1][..i] == chains[..i];
      var next := BuildChain(list, dir, acc, chains[i], now);
      if next.Failure? {
        FoldFailurePersists(list, dir, chains, i + 1, now);
        return Failure(next.error);
      }
      acc := next.value;
      i := i + 1;
    }
    assert chains[..i] == chains;
    return Success(Built(acc.files, acc.total, acc.warnings));
  }

  /** `buildAddresses`. */
  method BuildAddresses(root: seq<Entry>, now: string) returns (r: Result<Built, Fatal>)
    ensures r == ChainListsSpec(AddressList, root, now)
  {
    r := BuildChainLists(AddressList, root, now);
  }

  /** `buildTokens`. */
  method BuildTokens(root: seq<Entry>, now: string) returns (r: Result<Built, Fatal>)
    ensures r == ChainListsSpec(TokenList, root, now)
  {
    r := BuildChainLists(TokenList, root, now);
  }

  // ----- what the loop writes -----

  /** The file written for chain directory `e`, if it holds any document. */
  ghost predicate WrittenFrom(list: ListDomain, dir: string, e: Entry, now: string, chainId: int, doc: OutDoc)
  {
    && IsChainDir(e) && ParseInt(e.name) == Some(chainId)
    && var docs := ChainDocs(dir, e);
    && |docs| > 0
    && doc.ChainList? && doc.chainId == chainId && doc.updatedAt == now
    && doc.count == |doc.items| == |docs|
    && StableSortOf(doc.items, docs, ListKey(list))
  }

  /** `WrittenFrom` as a relation between an entry, a chain id and a document. */
  ghost function WrittenBy(list: ListDomain, dir: string, now: string): (Entry, int, OutDoc) -> bool
  {
    (e, chainId, doc) => WrittenFrom(list, dir, e, now, chainId, doc)
  }

  /**
   * Every file written is `<domain>/<id>.json` for some directory whose name
   * parses to `id` and that holds at least one document; it lists that
   * directory's documents sorted stably by the domain's display key, and its
   * count is their number.
   */
  lemma {:induction false} ChainFilesWritten(list: ListDomain, dir: string, entries: seq<Entry>, now: string)
    requires Fold(list, dir, entries, now).Success?
    ensures ChainFilesFrom(Domain(list), entries, Fold(list, dir, entries, now).value.files, WrittenBy(list, dir, now))
  {
    if entries != [] {
      var n := |entries|;
      var init, e := entries[..n - 1], entries[n - 1];
      ChainFilesWritten(list, dir, init, now);
      var acc := Fold(list, dir, init, now).value;
      StepWrites(list, dir, acc, e, now);
      var id := if IsChainDir(e) then ParseInt(e.name).value else 0;
      var doc := if IsChainDir(e) then ChainListDoc(list, dir, e, now) else ChainList(0, now, 0, []);
      if IsChainDir(e) && |ChainDocs(dir, e)| > 0 {
        ChainListDocWrittenFrom(list, dir, e, now);
      }
      ChainFilesFromStep(Domain(list), entries, acc.files, Fold(list, dir, entries, now).value.files,
        WrittenBy(list, dir, now), id, doc);
    }
  }

  /** A chain directory's file is what `WrittenFrom` describes. */
  lemma ChainListDocWrittenFrom(list: ListDomain, dir: string, e: Entry, now: string)
    requires IsChainDir(e) && |ChainDocs(dir, e)| > 0
    ensures WrittenFrom(list, dir, e, now, ParseInt(e.name).value, ChainListDoc(list, dir, e, now))
  {
    SortByIsStableSort(ChainDocs(dir, e), ListKey(list));
    SortByLength(ChainDocs(dir, e), ListKey(list));
  }

  /** The chain id a directory's name parses to, 0 for any other entry. */
  function ChainId(e: Entry): int
  {
    if IsChainDir(e) then ParseInt(e.name).value else 0
  }

  /** The file a chain directory of `domain` would be written to. */
  function ChainFileOf(domain: ChainDomain): Entry -> OutPath
  {
    e => ChainFile(domain, ChainId(e))
  }

  /** A directory whose name parses to a chain id and that holds at least one document. */
  ghost function HasChainDocs(dir: string): Entry -> bool
  {
    e => IsChainDir(e) && |ChainDocs(dir, e)| > 0
  }

  /**
   * Every directory whose name parses to a chain id and that holds at least
   * one document gets its file `<domain>/<id>.json`.
   */
  lemma {:induction false} ChainDirsWritten(list: ListDomain, dir: string, entries: seq<Entry>, now: string)
    requires Fold(list, dir, entries, now).Success?
    ensures WritesEvery(entries, Fold(list, dir, entries, now).value.files, HasChainDocs(dir), ChainFileOf(Domain(list)))
  {
    if entries != [] {
      var n := |entries|;
      var init, e := entries[..n - 1], entries[n - 1];
      ChainDirsWritten(list, dir, init, now);
      var acc := Fold(list, dir, init, now).value;
      StepWrites(list, dir, acc, e, now);
      WritesEveryStep(entries, acc.files, Fold(list, dir, entries, now).value.files, HasChainDocs(dir), ChainFileOf(Domain(list)));
    }
  }

  /** The sum of the documents loaded from every chain directory. */
  function ChainDocTotal(dir: string, entries: seq<Entry>): nat
  {
    if entries == [] then 0
    else (if IsChainDir(entries[0]) then |ChainDocs(dir, entries[0])| else 0) + ChainDocTotal(dir, entries[1..])
  }

  lemma {:induction false} ChainDocTotalAppend(dir: string, a: seq<Entry>, e: Entry)
    ensures ChainDocTotal(dir, a + [e]) == ChainDocTotal(dir, a) + (if IsChainDir(e) then |ChainDocs(dir, e)| else 0)
  {
    if a == [] {
      assert [e][1..] == [];
    } else {
      assert (a + [e])[0] == a[0] && (a + [e])[1..] == a[1..] + [e];
      ChainDocTotalAppend(dir, a[1..], e);
    }
  }

  /** No two chain directories name the same chain (as "1" and "01" would). */
  predicate DistinctChainIds(entries: seq<Entry>)
  {
    forall i, j :: 0 <= i < j < |entries| && IsChainDir(entries[i]) && IsChainDir(entries[j]) ==>
      ParseInt(entries[i].name) != ParseInt(entries[j].name)
  }

  lemma DistinctChainIdsPrefix(entries: seq<Entry>)
    requires entries != [] && DistinctChainIds(entries)
    ensures DistinctChainIds(entries[..|entries| - 1])
  {
    var init := entries[..|entries| - 1];
    forall i, j | 0 <= i < j < |init| && IsChainDir(init[i]) && IsChainDir(init[j])
      ensures ParseInt(init[i].name) != ParseInt(init[j].name)
    {
      assert init[i] == entries[i] && init[j] == entries[j];
    }
  }

  /** The document written for a chain directory. */
  function ChainListDoc(list: ListDomain, dir: string, e: Entry, now: string): OutDoc
    requires IsChainDir(e)
  {
    var items := SortBy(ChainDocs(dir, e), ListKey(list));
    ChainList(ParseInt(e.name).value, now, |items|, items)
  }

  /** What one step adds to the files and to the total. */
  lemma StepWrites(list: ListDomain, dir: string, acc: Acc, e: Entry, now: string)
    requires Step(list, dir, acc, e, now).Success?
    ensures Step(list, dir, acc, e, now).value.total
      == acc.total + if IsChainDir(e) then |ChainDocs(dir, e)| else 0
    ensures !IsChainDir(e) || |ChainDocs(dir, e)| == 0 ==>
      Step(list, dir, acc, e, now).value.files == acc.files
    ensures IsChainDir(e) && |ChainDocs(dir, e)| > 0 ==>
      Step(list, dir, acc, e, now).value.files
        == acc.files[ChainFile(Domain(list), ParseInt(e.name).value) := ChainListDoc(list, dir, e, now)]
  {
  }

  /** The returned total counts every document loaded from every chain directory. */
  lemma {:induction false} ChainTotalIsSum(list: ListDomain, dir: string, entries: seq<Entry>, now: string)
    requires Fold(list, dir, entries, now).Success?
    ensures Fold(list, dir, entries, now).value.total == ChainDocTotal(dir, entries)
  {
    if entries != [] {
      var n := |entries|;
      var init, e := entries[..n - 1], entries[n - 1];
      assert entries == init + [e];
      ChainTotalIsSum(list, dir, init, now);
      ChainDocTotalAppend(dir, init, e);
    }
  }

  /**
   * When no two directories name the same chain, the returned total is the sum
   * of the counts of the files written.
   */
  lemma {:induction false} ChainTotalWritten(list: ListDomain, dir: string, entries: seq<Entry>, now: string)
    requires Fold(list, dir, entries, now).Success?
    requires DistinctChainIds(entries)
    ensures Fold(list, dir, entries, now).value.total == SumValues(Fold(list, dir, entries, now).value.files, DocCount)
  {
    if entries != [] {
      var n := |entries|;
      var init, e := entries[..n - 1], entries[n - 1];
      DistinctChainIdsPrefix(entries);
      ChainTotalWritten(list, dir, init, now);
      var acc := Fold(list, dir, init, now).value;
      StepWrites(list, dir, acc, e, now);
      if IsChainDir(e) && |ChainDocs(dir, e)| > 0 {
        var key := ChainFile(Domain(list), ParseInt(e.name).value);
        NewChainNotWritten(list, dir, entries, now);
        SortByLength(ChainDocs(dir, e), ListKey(list));
        SumValuesAdd(acc.files, DocCount, key, ChainListDoc(list, dir, e, now));
      }
    }
  }

  /** With distinct chain ids, the last directory's chain has no file yet when its turn comes. */
  lemma NewChainNotWritten(list: ListDomain, dir: string, entries: seq<Entry>, now: string)
    requires entries != [] && DistinctChainIds(entries) && IsChainDir(entries[|entries| - 1])
    requires Fold(list, dir, entries[..|entries| - 1], now).Success?
    ensures ChainFile(Domain(list), ParseInt(entries[|entries| - 1].name).value)
      !in Fold(list, dir, entries[..|entries| - 1], now).value.files
  {
    var n := |entries|;
    var init := entries[..n - 1];
    ChainFilesWritten(list, dir, init, now);
    NoFileForLaterChain(list, dir, entries, now, Fold(list, dir, init, now).value.files);
  }

  /** Files written from all but the last entry do not include the last entry's chain. */
  lemma NoFileForLaterChain(list: ListDomain, dir: string, entries: seq<Entry>, now: string, files: map<OutPath, OutDoc>)
    requires entries != [] && DistinctChainIds(entries) && IsChainDir(entries[|entries| - 1])
    requires ChainFilesFrom(Domain(list), entries[..|entries| - 1], files, WrittenBy(list, dir, now))
    ensures ChainFile(Domain(list), ParseInt(entries[|entries| - 1].name).value) !in files
  {
    var n := |entries|;
    var init := entries[..n - 1];
    var id := ParseInt(entries[n - 1].name).value;
    forall p | p in files
      ensures p.chainId != id
    {
      var i :| 0 <= i < |init| && WrittenBy(list, dir, now)(init[i], p.chainId, files[p]);
      assert init[i] == entries[i];
      assert ParseInt(entries[i].name) == Some(p.chainId);
    }
  }

  /** The step for a chain directory whose documents all parsed, none of them null. */
  lemma StepWritesChain(list: ListDomain, dir: string, acc: Acc, e: Entry, now: string, chainId: int,
                        docs: seq<Json>, items: seq<Json>)
    requires e.Dir? && ParseInt(e.name) == Some(chainId)
    requires LoadEntries(Join(dir, e.name), e.children) == Loaded(docs, [])
    requires |docs| > 0 && !SortThrows(docs) && SortBy(docs, ListKey(list)) == items
    ensures Step(list, dir, acc, e, now).Success?
    ensures Step(list, dir, acc, e, now).value.files
      == acc.files[ChainFile(Domain(list), chainId) := ChainList(chainId, now, |items|, items)]
    ensures Step(list, dir, acc, e, now).value.total == acc.total + |docs|
    ensures Step(list, dir, acc, e, now).value.warnings == acc.warnings
  {
    assert acc.warnings + [] == acc.warnings;
  }

  lemma OneAndZeroOneNameChainOne()
    ensures ParseInt("1") == Some(1) && ParseInt("01") == Some(1)
  {
    ParseIntOfDigits("1");
    ParseIntOfDigits("01");
    assert DigitsValue("1") == 1 by { assert "1"[..0] == ""; }
    assert DigitsValue("01") == 1 by { assert "01"[..1] == "0"; assert "0"[..0] == ""; }
  }

  lemma LoadSingleFile(path: string, doc: Json)
    ensures LoadEntries(path, [File("a.json", Parsed(doc))]) == Loaded([doc], [])
  {
    assert EndsWith("a.json", ".json");
    assert [File("a.json", Parsed(doc))][..0] == [];
  }

  /**
   * Two directories whose names parse to the same chain id, each holding one
   * document: the second file overwrites the first, yet both add to the total.
   */
  lemma SameChainTwiceOverCounts(list: ListDomain, dir: string, e1: Entry, e2: Entry, now: string, id: int, doc: Json)
    requires e1.Dir? && e2.Dir? && ParseInt(e1.name) == Some(id) && ParseInt(e2.name) == Some(id)
    requires LoadEntries(Join(dir, e1.name), e1.children) == Loaded([doc], [])
    requires LoadEntries(Join(dir, e2.name), e2.children) == Loaded([doc], [])
    ensures Fold(list, dir, [e1, e2], now).Success?
    ensures Fold(list, dir, [e1, e2], now).value.total == 2
    ensures SumValues(Fold(list, dir, [e1, e2], now).value.files, DocCount) == 1
  {
    var key := ChainFile(Domain(list), id);
    var out := ChainList(id, now, 1, [doc]);
    var acc1 := Acc(map[][key := out], 1, []);
    SortBySingleton(doc, ListKey(list));
    StepWritesChain(list, dir, Acc(map[], 0, []), e1, now, id, [doc], [doc]);
    StepWritesChain(list, dir, acc1, e2, now, id, [doc], [doc]);
    FoldTwo(list, dir, e1, e2, now);
    assert Fold(list, dir, [e1, e2], now) == Success(Acc(map[][key := out][key := out], 2, []));
    assert SumValues(map[][key := out][key := out], DocCount) == 1 by {
      SumValuesAdd(map[], DocCount, key, out);
      assert map[][key := out][key := out] == map[][key := out];
    }
  }

  /** The loop over two entries: one step, then the other. */
  lemma FoldTwo(list: ListDomain, dir: string, e1: Entry, e2: Entry, now: string)
    ensures var first := Step(list, dir, Acc(map[], 0, []), e1, now);
      Fold(list, dir, [e1, e2], now) == if first.Failure? then Failure(first.error) else Step(list, dir, first.value, e2, now)
  {
    var entries := [e1, e2];
    assert [e1][..0] == [];
    assert Fold(list, dir, [e1], now) == Step(list, dir, Acc(map[], 0, []), e1, now);
    assert entries[..1] == [e1];
  }

  /**
   * Two directories that name the same chain: "1" and "01" both parse to 1, the
   * second file overwrites the first, yet both add to the total, so the count
   * reported exceeds what the written files hold.
   */
  lemma DuplicateChainIdsOverCount(doc: Json, now: string)
    ensures var entries := [Dir("1", [File("a.json", Parsed(doc))]), Dir("01", [File("a.json", Parsed(doc))])];
      && Fold(AddressList, "data/addresses", entries, now).Success?
      && Fold(AddressList, "data/addresses", entries, now).value.total == 2
      && SumValues(Fold(AddressList, "data/addresses", entries, now).value.files, DocCount) == 1
  {
    var dir := "data/addresses";
    var children := [File("a.json", Parsed(doc))];
    OneAndZeroOneNameChainOne();
    LoadSingleFile(Join(dir, "1"), doc);
    LoadSingleFile(Join(dir, "01"), doc);
    SameChainTwiceOverCounts(AddressList, dir, Dir("1", children), Dir("01", children), now, 1, doc);
  }
}
