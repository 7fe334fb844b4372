/**
 * `buildSupporters`: one supporter record per token, network, app or
 * organization document with a truthy `subscription`, all of them sorted by name.
 */
module Supporters {
  import opened Wrappers
  import opened Json
  import opened JsParseInt
  import opened FsTree
  import opened Loader
  import opened Sorting
  import opened Output
  import opened FlatLists

  /** The document has a truthy `subscription` (reading it from null throws). */
  predicate Subscribed(doc: Json)
  {
    Truthy(Field(doc, "subscription"))
  }

  /**
   * The record derived from a subscribed document of one domain. Every record
   * takes its tier and expiry from the subscription, with `startedAt` standing in
   * for the missing start date. A token is identified by its address and shown as
   * "<name> (<symbol>)"; a network by its chain id written as a string; an app or
   * organization by its own `id`, without a chain id.
   */
  function SupporterOf(kind: SupporterType, doc: Json): (s: Supporter)
    requires Subscribed(doc)
    ensures s.kind == kind
    ensures s.currentTier == Field(Field(doc, "subscription").value, "tier")
    ensures s.expiresAt == Field(Field(doc, "subscription").value, "expiresAt")
    ensures s.startedAt == s.expiresAt
    ensures kind == TokenSupporter ==>
      && s.id == Field(doc, "address")
      && s.chainId == Field(doc, "chainId")
      && s.name == Some(JStr(ToJsString(Field(doc, "name")) + " (" + ToJsString(Field(doc, "symbol")) + ")"))
    ensures kind == NetworkSupporter ==>
      && s.id == Some(JStr(ToJsString(Field(doc, "chainId"))))
      && s.chainId == Field(doc, "chainId")
      && s.name == Field(doc, "name")
    ensures kind == AppSupporter || kind == OrganizationSupporter ==>
      && s.id == Field(doc, "id")
      && s.chainId == None
      && s.name == Field(doc, "name")
  {
    var sub := Field(doc, "subscription").value;
    var expiresAt := Field(sub, "expiresAt");
    var tier := Field(sub, "tier");
    match kind
    case TokenSupporter =>
      var name := ToJsString(Field(doc, "name")) + " (" + ToJsString(Field(doc, "symbol")) + ")";
      Supporter(Field(doc, "address"), kind, Field(doc, "chainId"), Some(JStr(name)), expiresAt, tier, expiresAt)
    case NetworkSupporter =>
      var id := ToJsString(Field(doc, "chainId"));
      Supporter(Some(JStr(id)), kind, Field(doc, "chainId"), Field(doc, "name"), expiresAt, tier, expiresAt)
    case AppSupporter =>
      Supporter(Field(doc, "id"), kind, None, Field(doc, "name"), expiresAt, tier, expiresAt)
    case OrganizationSupporter =>
      Supporter(Field(doc, "id"), kind, None, Field(doc, "name"), expiresAt, tier, expiresAt)
  }

  /** What the loop over one domain's documents pushes, in order. */
  function Derive(kind: SupporterType, docs: seq<Json>): seq<Supporter>
  {
    if docs == [] then []
    else
      var doc := docs[|docs| - 1];
      Derive(kind, docs[..|docs| - 1]) + if Subscribed(doc) then [SupporterOf(kind, doc)] else []
  }

  /** One of the four loops: a null document aborts, a subscribed one is pushed. */
  method CollectSupporters(kind: SupporterType, path: string, docs: seq<Json>, supporters: seq<Supporter>)
    returns (r: Result<seq<Supporter>, Fatal>)
    ensures JNull in docs ==> r == Failure(TypeError(path))
    ensures JNull !in docs ==> r == Success(supporters + Derive(kind, docs))
  {
    var pushed := supporters;
    var i := 0;
    while i < |docs|
      invariant 0 <= i <= |docs|
      invariant JNull !in docs[..i]
      invariant pushed == supporters + Derive(kind, docs[..i])
    {
      var doc := docs[i];
      assert docs[..i + 1][..i] == docs[..i] && docs[..i + 1][i] == doc;
      if doc == JNull {
        return Failure(TypeError(path));
      }
      if Truthy(Field(doc, "subscription")) {
        pushed := pushed + [SupporterOf(kind, doc)];
      }
      i := i + 1;
    }
    assert docs[..i] == docs;
    return Success(pushed);
  }

  /** The supporters pushed so far and the warnings logged so far. */
  datatype Stage = Stage(supporters: seq<Supporter>, warnings: seq<Warning>)

  /** `loadJsonFilesFromDir(path)` for the entry `name` of `data/`; a missing directory gives no documents. */
  function LoadDomain(root: seq<Entry>, name: string, path: string): Result<Loaded, Fatal>
  {
    match Find(root, name)
    case None => Success(Loaded([], []))
    case Some(File(_, _)) => Failure(NotADirectory(path))
    case Some(Dir(_, children)) => Success(LoadEntries(path, children))
  }

  /**
   * What `for (const network of content.networks || [])` visits: an array's
   * elements, nothing for a string (its characters have no `subscription`), and
   * a TypeError for any other value, which is not iterable.
   */
  function NetworkList(content: Json): Result<Loaded, Fatal>
  {
    if content == JNull then Failure(TypeError("data/networks.json"))
    else
      match OrElse(Field(content, "networks"), Some(JArr([])))
      case Some(JArr(items)) => Success(Loaded(items, []))
      case Some(JStr(_)) => Success(Loaded([], []))
      case _ => Failure(TypeError("data/networks.json"))
  }

  /** The networks `data/networks.json` lists, none when the file is absent. */
  function LoadNetworks(root: seq<Entry>): Result<Loaded, Fatal>
  {
    match Find(root, "networks.json")
    case None => Success(Loaded([], []))
    case Some(node) =>
      match ReadJson("data/networks.json", node)
      case Failure(f) => Failure(f)
      case Success(content) => NetworkList(content)
  }

  /**
   * What the network scan visits: a null document, or a truthy `networks` that is
   * neither an array nor a string, throws; otherwise the elements of the
   * `networks` array, or nothing, and no warnings.
   */
  lemma NetworkListVisits(content: Json)
    ensures NetworkList(content).Failure? <==>
      || content == JNull
      || (Truthy(Field(content, "networks")) && !Field(content, "networks").value.JArr?
          && !Field(content, "networks").value.JStr?)
    ensures NetworkList(content).Success? ==> NetworkList(content).value.warnings == []
    ensures NetworkList(content).Success? && NetworkList(content).value.docs != [] ==>
      Field(content, "networks") == Some(JArr(NetworkList(content).value.docs))
    ensures Field(content, "networks").Some? && Field(content, "networks").value.JArr? ==>
      NetworkList(content) == Success(Loaded(Field(content, "networks").value.items, []))
    ensures content != JNull && (!Truthy(Field(content, "networks")) || Field(content, "networks").value.JStr?) ==>
      NetworkList(content) == Success(Loaded([], []))
  {
  }

  /**
   * An absent file gives no networks; a directory or an unparsable file in its
   * place aborts; the networks visited are the elements of its `networks` array.
   */
  lemma LoadNetworksReads(root: seq<Entry>)
    ensures Find(root, "networks.json").None? ==> LoadNetworks(root) == Success(Loaded([], []))
    ensures Find(root, "networks.json").Some? && Find(root, "networks.json").value.Dir? ==> LoadNetworks(root).Failure?
    ensures Find(root, "networks.json").Some? && Find(root, "networks.json").value.File? ==>
      Find(root, "networks.json").value.content.Malformed? ==> LoadNetworks(root).Failure?
    ensures LoadNetworks(root).Success? ==> LoadNetworks(root).value.warnings == []
    ensures LoadNetworks(root).Success? && LoadNetworks(root).value.docs != [] ==>
      && Find(root, "networks.json").Some? && Find(root, "networks.json").value.File?
      && Find(root, "networks.json").value.content.Parsed?
      && Field(Find(root, "networks.json").value.content.doc, "networks") == Some(JArr(LoadNetworks(root).value.docs))
    ensures Find(root, "networks.json").Some? && Find(root, "networks.json").value.File? ==>
      Find(root, "networks.json").value.content.Parsed? ==>
      LoadNetworks(root) == NetworkList(Find(root, "networks.json").value.content.doc)
  {
  }

  /**
   * `buildNetworks` and the network scan of `buildSupporters` read the same
   * list: when the first does not abort, neither does the second, and
   * `networks.json` lists exactly the networks the scan visits.
   */
  lemma NetworksScanAgrees(root: seq<Entry>, now: string)
    requires BuildNetworks(root, now).Success?
    ensures LoadNetworks(root).Success?
    ensures Find(root, "networks.json").Some? ==>
      && NetworksFile in BuildNetworks(root, now).value.files
      && BuildNetworks(root, now).value.files[NetworksFile].ItemList?
      && multiset(BuildNetworks(root, now).value.files[NetworksFile].items) == multiset(LoadNetworks(root).value.docs)
      && StableSortOf(BuildNetworks(root, now).value.files[NetworksFile].items, LoadNetworks(root).value.docs, NetworkKey)
  {
    if Find(root, "networks.json").Some? {
      var content := Find(root, "networks.json").value.content.doc;
      NetworkListVisits(content);
      SortByIsStableSort(LoadNetworks(root).value.docs, NetworkKey);
    }
  }

  /** One domain's loop after the earlier ones: it runs only if they did not abort. */
  function Extend(prev: Result<Stage, Fatal>, kind: SupporterType, path: string, loaded: Result<Loaded, Fatal>): Result<Stage, Fatal>
  {
    match prev
    case Failure(f) => Failure(f)
    case Success(stage) =>
      match loaded
      case Failure(f) => Failure(f)
      case Success(l) =>
        if JNull in l.docs then Failure(TypeError(path))
        else Success(Stage(stage.supporters + Derive(kind, l.docs), stage.warnings + l.warnings))
  }

  /** The four loops in the order the builder runs them: tokens, networks, apps, organizations. */
  function Collected(root: seq<Entry>): Result<Stage, Fatal>
  {
    var tokens := Extend(Success(Stage([], [])), TokenSupporter, "data/tokens", LoadDomain(root, "tokens", "data/tokens"));
    var networks := Extend(tokens, NetworkSupporter, "data/networks.json", LoadNetworks(root));
    var apps := Extend(networks, AppSupporter, "data/apps", LoadDomain(root, "apps", "data/apps"));
    Extend(apps, OrganizationSupporter, "data/orgs", LoadDomain(root, "orgs", "data/orgs"))
  }

  /**
   * `a.name.localeCompare(b.name)`: a string name is compared as itself, and a
   * missing one as the text "undefined".
   */
  function SupporterKey(s: Supporter): (k: SortKey)
    ensures k.Text?
    ensures s.name.Some? && s.name.value.JStr? ==> k == Text(s.name.value.s)
    ensures s.name.None? ==> k == Text("undefined")
  {
    Text(ToJsString(s.name))
  }

  function SupportersSpec(root: seq<Entry>, now: string): Result<Built, Fatal>
  {
    match Collected(root)
    case Failure(f) => Failure(f)
    case Success(stage) =>
      var sorted := SortBy(stage.supporters, SupporterKey);
      Success(Built(map[SupportersFile := SupporterList(now, |sorted|, sorted)], |sorted|, stage.warnings))
  }

  method ExtendStage(stage: Stage, kind: SupporterType, path: string, loaded: Result<Loaded, Fatal>)
    returns (r: Result<Stage, Fatal>)
    ensures r == Extend(Success(stage), kind, path, loaded)
  {
    if loaded.Failure? {
      return Failure(loaded.error);
    }
    var collected := CollectSupporters(kind, path, loaded.value.docs, stage.supporters);
    if collected.Failure? {
      return Failure(collected.error);
    }
    return Success(Stage(collected.value, stage.warnings + loaded.value.warnings));
  }

  /** `buildSupporters`. */
  method BuildSupporters(root: seq<Entry>, now: string) returns (r: Result<Built, Fatal>)
    ensures r == SupportersSpec(root, now)
  {
    var stage := Stage([], []);

    var tokens := LoadJsonFilesFromDir("data/tokens", Find(root, "tokens"));
    assert tokens == LoadDomain(root, "tokens", "data/tokens");
    var next := ExtendStage(stage, TokenSupporter, "data/tokens", tokens);
    if next.Failure? {
      return Failure(next.error);
    }
    stage := next.value;

    var networks := LoadNetworks(root);
    next := ExtendStage(stage, NetworkSupporter, "data/networks.json", networks);
    if next.Failure? {
      return Failure(next.error);
    }
    stage := next.value;

    var apps := LoadJsonFilesFromDir("data/apps", Find(root, "apps"));
    assert apps == LoadDomain(root, "apps", "data/apps");
    next := ExtendStage(stage, AppSupporter, "data/apps", apps);
    if next.Failure? {
      return Failure(next.error);
    }
    stage := next.value;

    var orgs := LoadJsonFilesFromDir("data/orgs", Find(root, "orgs"));
    assert orgs == LoadDomain(root, "orgs", "data/orgs");
    next := ExtendStage(stage, OrganizationSupporter, "data/orgs", orgs);
    if next.Failure? {
      return Failure(next.error);
    }
    stage := next.value;

    var sorted := SortBy(stage.supporters, SupporterKey);
    var output := SupporterList(now, |sorted|, sorted);
    return Success(Built(map[SupportersFile := output], |sorted|, stage.warnings));
  }

  // ----- what the list holds -----

  /** The number of subscribed documents. */
  function SubscribedCount(docs: seq<Json>): nat
  {
    if docs == [] then 0 else (if Subscribed(docs[0]) then 1 else 0) + SubscribedCount(docs[1..])
  }

  lemma {:induction false} SubscribedCountAppend(docs: seq<Json>, doc: Json)
    ensures SubscribedCount(docs + [doc]) == SubscribedCount(docs) + if Subscribed(doc) then 1 else 0
  {
    if docs == [] {
      assert [doc][1..] == [];
    } else {
      assert (docs + [doc])[1..] == docs[1..] + [doc];
      SubscribedCountAppend(docs[1..], doc);
    }
  }

  /**
   * A domain's loop pushes exactly one record per subscribed document: as many
   * records as subscribed documents, and a record is pushed exactly when it is
   * derived from one of them.
   */
  lemma {:induction false} DeriveMembers(kind: SupporterType, docs: seq<Json>)
    ensures |Derive(kind, docs)| == SubscribedCount(docs)
    ensures forall s :: s in Derive(kind, docs) <==>
      exists i :: 0 <= i < |docs| && Subscribed(docs[i]) && s == SupporterOf(kind, docs[i])
  {
    if docs != [] {
      var n := |docs|;
      var init, doc := docs[..n - 1], docs[n - 1];
      assert docs == init + [doc];
      DeriveMembers(kind, init);
      SubscribedCountAppend(init, doc);
      forall s
        ensures s in Derive(kind, docs) <==>
          exists i :: 0 <= i < n && Subscribed(docs[i]) && s == SupporterOf(kind, docs[i])
      {
        if s in Derive(kind, init) {
          var i :| 0 <= i < n - 1 && Subscribed(init[i]) && s == SupporterOf(kind, init[i]);
          assert docs[i] == init[i];
        }
        if exists i :: 0 <= i < n && Subscribed(docs[i]) && s == SupporterOf(kind, docs[i]) {
          var i :| 0 <= i < n && Subscribed(docs[i]) && s == SupporterOf(kind, docs[i]);
          if i < n - 1 {
            assert init[i] == docs[i];
          }
        }
      }
    }
  }

  /** The documents of the four domains, once all four loops have run. */
  datatype Sources = Sources(tokens: seq<Json>, networks: seq<Json>, apps: seq<Json>, orgs: seq<Json>)

  ghost function SourcesOf(root: seq<Entry>): Sources
    requires Collected(root).Success?
  {
    Sources(LoadDomain(root, "tokens", "data/tokens").value.docs, LoadNetworks(root).value.docs,
            LoadDomain(root, "apps", "data/apps").value.docs, LoadDomain(root, "orgs", "data/orgs").value.docs)
  }

  /**
   * When the builder does not abort, the records are those of the tokens, then
   * the networks, then the apps, then the organizations, and no document of any
   * domain is null.
   */
  lemma CollectedAll(root: seq<Entry>)
    requires Collected(root).Success?
    ensures LoadDomain(root, "tokens", "data/tokens").Success? && LoadNetworks(root).Success?
    ensures LoadDomain(root, "apps", "data/apps").Success? && LoadDomain(root, "orgs", "data/orgs").Success?
    ensures var src := SourcesOf(root);
      && JNull !in src.tokens && JNull !in src.networks && JNull !in src.apps && JNull !in src.orgs
      && Collected(root).value.supporters == AllRecords(src)
  {
  }

  /** The records of the four domains, in the order the loops push them. */
  function AllRecords(src: Sources): seq<Supporter>
  {
    Derive(TokenSupporter, src.tokens) + Derive(NetworkSupporter, src.networks)
    + Derive(AppSupporter, src.apps) + Derive(OrganizationSupporter, src.orgs)
  }

  lemma AllRecordsOfKind(src: Sources, kind: SupporterType)
    ensures forall s :: s in AllRecords(src) ==> s.startedAt == s.expiresAt
    ensures forall s :: s in AllRecords(src) && s.kind == kind <==>
      exists d :: d in DomainDocs(src, kind) && Subscribed(d) && s == SupporterOf(kind, d)
  {
    DerivedOfKind(TokenSupporter, src.tokens, kind);
    DerivedOfKind(NetworkSupporter, src.networks, kind);
    DerivedOfKind(AppSupporter, src.apps, kind);
    DerivedOfKind(OrganizationSupporter, src.orgs, kind);
  }

  /** The number of subscribed documents across the four domains. */
  ghost function SubscribedTotal(src: Sources): nat
  {
    SubscribedCount(src.tokens) + SubscribedCount(src.networks) + SubscribedCount(src.apps) + SubscribedCount(src.orgs)
  }

  /**
   * `supporters.json` lists every record sorted stably by name, and its count,
   * which is also the builder's, is the number of subscribed documents.
   */
  lemma SupportersWritten(root: seq<Entry>, now: string)
    requires SupportersSpec(root, now).Success?
    ensures Collected(root).Success?
    ensures var built := SupportersSpec(root, now).value;
      && built.files.Keys == {SupportersFile}
      && built.files[SupportersFile].SupporterList?
      && built.files[SupportersFile].updatedAt == now
      && built.count == built.files[SupportersFile].count == |built.files[SupportersFile].supporters|
      && built.count == SubscribedTotal(SourcesOf(root))
      && StableSortOf(built.files[SupportersFile].supporters, Collected(root).value.supporters, SupporterKey)
  {
    CollectedAll(root);
    var src := SourcesOf(root);
    var all := AllRecords(src);
    DeriveMembers(TokenSupporter, src.tokens);
    DeriveMembers(NetworkSupporter, src.networks);
    DeriveMembers(AppSupporter, src.apps);
    DeriveMembers(OrganizationSupporter, src.orgs);
    SortByIsStableSort(all, SupporterKey);
    SortByLength(all, SupporterKey);
  }

  /** The records of one kind are those derived from the subscribed documents of that kind's domain. */
  lemma DerivedOfKind(kind: SupporterType, docs: seq<Json>, other: SupporterType)
    ensures forall s :: s in Derive(kind, docs) ==> s.kind == kind && s.startedAt == s.expiresAt
    ensures forall s :: s in Derive(kind, docs) && s.kind == other <==>
      kind == other && exists d :: d in docs && Subscribed(d) && s == SupporterOf(kind, d)
  {
    DeriveMembers(kind, docs);
    forall s | kind == other && (exists d :: d in docs && Subscribed(d) && s == SupporterOf(kind, d))
      ensures s in Derive(kind, docs)
    {
      var d :| d in docs && Subscribed(d) && s == SupporterOf(kind, d);
      var i :| 0 <= i < |docs| && docs[i] == d;
    }
  }

  /**
   * Every record comes from a subscribed document of its own domain, and every
   * subscribed document of every domain gives a record; `startedAt` always
   * equals `expiresAt`.
   */
  lemma SupporterRecords(root: seq<Entry>, now: string, kind: SupporterType)
    requires SupportersSpec(root, now).Success?
    ensures Collected(root).Success?
    ensures var list := SupportersSpec(root, now).value.files[SupportersFile].supporters;
      && (forall s :: s in list ==> s.startedAt == s.expiresAt)
      && forall s :: s in list && s.kind == kind <==>
           exists d :: d in DomainDocs(SourcesOf(root), kind) && Subscribed(d) && s == SupporterOf(kind, d)
  {
    CollectedAll(root);
    var src := SourcesOf(root);
    var all := AllRecords(src);
    var list := SortBy(all, SupporterKey);
    assert SupportersSpec(root, now).value.files[SupportersFile].supporters == list;
    forall s ensures s in list <==> s in all {
      assert s in list <==> s in multiset(list);
      assert s in all <==> s in multiset(all);
    }
    AllRecordsOfKind(src, kind);
  }

  /** The documents of the domain whose records are of `kind`. */
  ghost function DomainDocs(src: Sources, kind: SupporterType): seq<Json>
  {
    match kind
    case TokenSupporter => src.tokens
    case NetworkSupporter => src.networks
    case AppSupporter => src.apps
    case OrganizationSupporter => src.orgs
  }

  /**
   * A subscribed token `{address: "0x1", chainId: 1, name: "Foo", symbol: "FOO"}`
   * with tier 2 gives the record with id "0x1", chain id 1, name "Foo (FOO)",
   * tier 2 and its expiry as both dates.
   */
  lemma TokenSupporterExample(expiresAt: string)
    ensures var sub := JObj(map["tier" := JNum(2), "expiresAt" := JStr(expiresAt)]);
      var token := JObj(map["address" := JStr("0x1"), "chainId" := JNum(1), "name" := JStr("Foo"),
                            "symbol" := JStr("FOO"), "subscription" := sub]);
      && Subscribed(token)
      && SupporterOf(TokenSupporter, token)
         == Supporter(Some(JStr("0x1")), TokenSupporter, Some(JNum(1)), Some(JStr("Foo (FOO)")),
                      Some(JStr(expiresAt)), Some(JNum(2)), Some(JStr(expiresAt)))
  {
    var sub := JObj(map["tier" := JNum(2), "expiresAt" := JStr(expiresAt)]);
    var token := JObj(map["address" := JStr("0x1"), "chainId" := JNum(1), "name" := JStr("Foo"),
                          "symbol" := JStr("FOO"), "subscription" := sub]);
    assert Field(token, "subscription") == Some(sub);
    assert Field(token, "name") == Some(JStr("Foo")) && Field(token, "symbol") == Some(JStr("FOO"));
    assert "Foo" + " (" + "FOO" + ")" == "Foo (FOO)";
  }

  /**
   * A network's id is its `chainId` written in decimal, so `parseInt` reads the
   * `chainId` back from it.
   */
  lemma NetworkIdRoundTrip(network: Json, chainId: int)
    requires Subscribed(network) && Field(network, "chainId") == Some(JNum(chainId))
    ensures SupporterOf(NetworkSupporter, network).id == Some(JStr(IntToString(chainId)))
    ensures ParseInt(SupporterOf(NetworkSupporter, network).id.value.s) == Some(chainId)
  {
    ParseIntOfIntToString(chainId);
  }
}
