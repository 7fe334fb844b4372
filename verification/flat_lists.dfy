/**
 * `buildNetworks`, `buildApps` and `buildOrganizations`: one file each, the
 * documents sorted by a key, and the number of documents as the count.
 */
module FlatLists {
  import opened Wrappers
  import opened Json
  import opened FsTree
  import opened Loader
  import opened Sorting
  import opened Output
  import opened ChainLists

  // ----- networks -----

  /** `(a.chainId as number) || 0`, compared numerically. */
  function NetworkKey(network: Json): (k: SortKey)
    ensures k.Num?
    ensures Truthy(Field(network, "chainId")) && Field(network, "chainId").value.JNum? ==>
      k == Num(Field(network, "chainId").value.n)
    ensures !Truthy(Field(network, "chainId")) ==> k == Num(0)
  {
    match OrElse(Field(network, "chainId"), Some(JNum(0)))
    case Some(JNum(n)) => Num(n)
    case _ => Num(0)
  }

  /**
   * `JSON.parse(readFileSync(path))` outside any `try`: a directory or a file
   * that does not parse aborts the run.
   */
  function ReadJson(path: string, node: Entry): Result<Json, Fatal>
  {
    match node
    case Dir(_, _) => Failure(IsADirectory(path))
    case File(_, Malformed(err)) => Failure(Unparseable(path, err))
    case File(_, Parsed(doc)) => Success(doc)
  }

  /**
   * `content.networks || []` and the sort: a null document has no properties, and
   * a truthy value that is not an array has no `sort` method.
   */
  function SortedNetworks(content: Json): Result<seq<Json>, Fatal>
  {
    if content == JNull then Failure(TypeError("data/networks.json"))
    else
      match OrElse(Field(content, "networks"), Some(JArr([])))
      case Some(JArr(networks)) =>
        if SortThrows(networks) then Failure(TypeError("data/networks.json"))
        else Success(SortBy(networks, NetworkKey))
      case _ => Failure(TypeError("data/networks.json"))
  }

  /** `buildNetworks`: an absent `data/networks.json` writes nothing and counts 0. */
  function BuildNetworks(root: seq<Entry>, now: string): (r: Result<Built, Fatal>)
    ensures r.Success? ==> r.value.warnings == [] && r.value.files.Keys <= {NetworksFile}
    ensures r.Success? && NetworksFile !in r.value.files ==> r.value.count == 0
    ensures Find(root, "networks.json").Some? && r.Success? ==> NetworksFile in r.value.files
  {
    match Find(root, "networks.json")
    case None => Success(Built(map[], 0, []))
    case Some(node) =>
      match ReadJson("data/networks.json", node)
      case Failure(f) => Failure(f)
      case Success(content) =>
        match SortedNetworks(content)
        case Failure(f) => Failure(f)
        case Success(networks) => Success(Built(map[NetworksFile := ItemList(now, |networks|, networks)], |networks|, []))
  }

  /**
   * When `data/networks.json` is absent nothing is written and the count is 0.
   * When it parses to an object whose `networks` is an array, `networks.json`
   * lists that array's elements sorted stably by `chainId`, a missing or falsy
   * `chainId` counting as 0, and the count is the list's length. A missing or
   * falsy `networks` gives an empty list.
   */
  lemma NetworksWritten(root: seq<Entry>, now: string)
    ensures Find(root, "networks.json").None? ==> BuildNetworks(root, now) == Success(Built(map[], 0, []))
    ensures Find(root, "networks.json").Some? && BuildNetworks(root, now).Success? ==>
      var built := BuildNetworks(root, now).value;
      && built.files.Keys == {NetworksFile}
      && built.files[NetworksFile].ItemList?
      && built.files[NetworksFile].updatedAt == now
      && built.count == built.files[NetworksFile].count == |built.files[NetworksFile].items|
      && var content := Find(root, "networks.json").value.content.doc;
         var listed := if Truthy(Field(content, "networks")) then Field(content, "networks").value.items else [];
         StableSortOf(built.files[NetworksFile].items, listed, NetworkKey)
  {
    match Find(root, "networks.json")
    case None =>
    case Some(node) =>
      if BuildNetworks(root, now).Success? {
        var content := node.content.doc;
        var listed := if Truthy(Field(content, "networks")) then Field(content, "networks").value.items else [];
        SortByIsStableSort(listed, NetworkKey);
        SortByLength(listed, NetworkKey);
      }
  }

  /**
   * The run aborts exactly when the file is present and is a directory, does not
   * parse, parses to null, has a truthy `networks` that is not an array, or has
   * a null among two or more networks.
   */
  lemma NetworksFailures(root: seq<Entry>, now: string)
    ensures BuildNetworks(root, now).Failure? <==>
      Find(root, "networks.json").Some? &&
      var node := Find(root, "networks.json").value;
      || node.Dir?
      || node.content.Malformed?
      || node.content.doc == JNull
      || (Truthy(Field(node.content.doc, "networks")) && !Field(node.content.doc, "networks").value.JArr?)
      || (Truthy(Field(node.content.doc, "networks")) && SortThrows(Field(node.content.doc, "networks").value.items))
  {
  }

  /**
   * A network file that parses to an object with an array of networks, none of
   * them null, is always written.
   */
  lemma NetworksNeverFail(root: seq<Entry>, now: string, networks: seq<Json>)
    requires Find(root, "networks.json").Some?
    requires Find(root, "networks.json").value == File("networks.json", Parsed(JObj(map["networks" := JArr(networks)])))
    requires JNull !in networks
    ensures BuildNetworks(root, now).Success?
    ensures BuildNetworks(root, now).value.count == |networks|
  {
    var content := JObj(map["networks" := JArr(networks)]);
    assert ReadJson("data/networks.json", Find(root, "networks.json").value) == Success(content);
    assert OrElse(Field(content, "networks"), Some(JArr([]))) == Some(JArr(networks));
    assert SortedNetworks(content) == Success(SortBy(networks, NetworkKey));
    SortByLength(networks, NetworkKey);
  }

  // ----- apps and organizations -----

  datatype ItemDomain = Apps | Organizations

  function ItemDir(d: ItemDomain): string
  {
    match d
    case Apps => "apps"
    case Organizations => "orgs"
  }

  function ItemFile(d: ItemDomain): OutPath
  {
    match d
    case Apps => AppsFile
    case Organizations => OrganizationsFile
  }

  /** The loader's result for `data/<dir>`, then the sort by name and the file written. */
  function ItemListSpec(d: ItemDomain, root: seq<Entry>, now: string): Result<Built, Fatal>
  {
    var dir := "data/" + ItemDir(d);
    match Find(root, ItemDir(d))
    case Some(File(_, _)) => Failure(NotADirectory(dir))
    case None => SortedItems(d, dir, Loaded([], []), now)
    case Some(Dir(_, children)) => SortedItems(d, dir, LoadEntries(dir, children), now)
  }

  /** The sort by name and the file written, once the documents are loaded. */
  function SortedItems(d: ItemDomain, dir: string, loaded: Loaded, now: string): Result<Built, Fatal>
  {
    if SortThrows(loaded.docs) then Failure(TypeError(dir))
    else
      var items := SortBy(loaded.docs, NameKey);
      Success(Built(map[ItemFile(d) := ItemList(now, |items|, items)], |items|, loaded.warnings))
  }

  method BuildItemList(d: ItemDomain, root: seq<Entry>, now: string) returns (r: Result<Built, Fatal>)
    ensures r == ItemListSpec(d, root, now)
  {
    var dir := "data/" + ItemDir(d);
    var loaded := LoadJsonFilesFromDir(dir, Find(root, ItemDir(d)));
    if loaded.Failure? {
      return Failure(loaded.error);
    }
    var docs := loaded.value.docs;
    if SortThrows(docs) {
      return Failure(TypeError(dir));
    }
    var items := SortBy(docs, NameKey);
    var output := ItemList(now, |items|, items);
    return Success(Built(map[ItemFile(d) := output], |items|, loaded.value.warnings));
  }

  /** `buildApps`. */
  method BuildApps(root: seq<Entry>, now: string) returns (r: Result<Built, Fatal>)
    ensures r == ItemListSpec(Apps, root, now)
  {
    r := BuildItemList(Apps, root, now);
  }

  /** `buildOrganizations`. */
  method BuildOrganizations(root: seq<Entry>, now: string) returns (r: Result<Built, Fatal>)
    ensures r == ItemListSpec(Organizations, root, now)
  {
    r := BuildItemList(Organizations, root, now);
  }

  /**
   * The file is written whether or not the directory exists: it lists every
   * document the loader found, sorted stably by name (a missing or falsy name
   * counting as ""), and the count is their number. A missing directory gives
   * an empty list.
   */
  lemma ItemListWritten(d: ItemDomain, root: seq<Entry>, now: string)
    requires ItemListSpec(d, root, now).Success?
    ensures var built := ItemListSpec(d, root, now).value;
      var docs := if Find(root, ItemDir(d)).None? then [] else LoadEntries("data/" + ItemDir(d), Find(root, ItemDir(d)).value.children).docs;
      && built.files.Keys == {ItemFile(d)}
      && built.files[ItemFile(d)].ItemList?
      && built.files[ItemFile(d)].updatedAt == now
      && built.count == built.files[ItemFile(d)].count == |docs|
      && StableSortOf(built.files[ItemFile(d)].items, docs, NameKey)
  {
    var node := Find(root, ItemDir(d));
    var docs := if node.None? then [] else LoadEntries("data/" + ItemDir(d), node.value.children).docs;
    SortByIsStableSort(docs, NameKey);
    SortByLength(docs, NameKey);
  }
}
