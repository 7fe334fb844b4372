/**
 * The distributable output: the files a run writes, keyed by their path, and the
 * documents they hold (before `JSON.stringify`).
 */
module Output {
  import opened Wrappers
  import opened Json
  import opened Loader
  import opened JsParseInt

  /** The domains written one file per chain. */
  datatype ChainDomain = AddressesDomain | EventsDomain | TokensDomain

  datatype OutPath =
    | ChainFile(domain: ChainDomain, chainId: int)
    | NetworksFile
    | AppsFile
    | OrganizationsFile
    | SupportersFile
    | DonationsFile
    | ManifestFile
  {
    /** The file's path under the output directory. */
    function Path(): string
    {
      match this
      case ChainFile(d, id) => DomainDir(d) + IntToString(id) + ".json"
      case NetworksFile => "networks.json"
      case AppsFile => "apps.json"
      case OrganizationsFile => "organizations.json"
      case SupportersFile => "supporters.json"
      case DonationsFile => "donations.json"
      case ManifestFile => "manifest.json"
    }
  }

  /** The directory under the output directory that holds a domain's chain files. */
  function DomainDir(d: ChainDomain): string
  {
    match d
    case AddressesDomain => "addresses/"
    case EventsDomain => "events/"
    case TokensDomain => "tokens/"
  }

  /**
   * Distinct output entries are distinct files: two paths that name the same
   * file are the same entry, since `String(id)` parses back to `id`.
   */
  lemma PathInjective(p: OutPath, q: OutPath)
    requires p.Path() == q.Path()
    ensures p == q
  {
    if p.ChainFile? && q.ChainFile? {
      ChainPathInjective(p.domain, p.chainId, q.domain, q.chainId);
    } else {
      PathStart(p);
      PathStart(q);
    }
  }

  lemma ChainPathInjective(a: ChainDomain, x: int, b: ChainDomain, y: int)
    requires DomainDir(a) + IntToString(x) + ".json" == DomainDir(b) + IntToString(y) + ".json"
    ensures a == b && x == y
  {
    var s := DomainDir(a) + IntToString(x) + ".json";
    assert s[0] == DomainDir(a)[0] == DomainDir(b)[0];
    var n := |DomainDir(a)|;
    assert IntToString(x) == s[n..|s| - 5] == IntToString(y);
    IntToStringInjective(x, y);
  }

  /** The first two letters of a path tell a chain file from the single files. */
  lemma PathStart(p: OutPath)
    ensures |p.Path()| >= 2
    ensures p.ChainFile? <==> p.Path()[..2] in {"ad", "ev", "to"}
  {
    var s := p.Path();
    match p
    case ChainFile(d, id) =>
      var a := DomainDir(d);
      assert s == a + IntToString(id) + ".json";
      assert s[..2] == a[..2] == [a[0], a[1]];
    case NetworksFile => assert s[..2] == "ne";
    case AppsFile => assert s[..2] == "ap";
    case OrganizationsFile => assert s[..2] == "or";
    case SupportersFile => assert s[..2] == "su";
    case DonationsFile => assert s[..2] == "do";
    case ManifestFile => assert s[..2] == "ma";
  }

  datatype SupporterType = TokenSupporter | NetworkSupporter | AppSupporter | OrganizationSupporter

  /** A derived supporter record; `None` fields are `undefined` and left out when written. */
  datatype Supporter = Supporter(
    id: Option<Json>,
    kind: SupporterType,
    chainId: Option<Json>,
    name: Option<Json>,
    startedAt: Option<Json>,
    currentTier: Option<Json>,
    expiresAt: Option<Json>)

  datatype Counts = Counts(
    tokens: nat,
    networks: nat,
    apps: nat,
    organizations: nat,
    supporters: nat,
    donations: nat,
    events: nat,
    addresses: nat)

  datatype OutDoc =
    | ChainList(chainId: int, updatedAt: string, count: nat, items: seq<Json>)  // addresses/<id>.json, tokens/<id>.json
    | ChainEvents(chainId: int, updatedAt: string, count: nat, common: Json, addresses: map<string, Json>)
    | ItemList(updatedAt: string, count: nat, items: seq<Json>)  // networks.json, apps.json, organizations.json
    | SupporterList(updatedAt: string, count: nat, supporters: seq<Supporter>)
    | Verbatim(content: Json)  // donations.json
    | Manifest(version: string, buildTime: string, counts: Counts)

  /** What one builder produced: the files it wrote, the count it returned, the warnings it logged. */
  datatype Built = Built(files: map<OutPath, OutDoc>, count: nat, warnings: seq<Warning>)

  /** The number a written document reports as its `count` (0 for the others). */
  function DocCount(doc: OutDoc): nat
  {
    match doc
    case ChainList(_, _, count, _) => count
    case ChainEvents(_, _, count, _, _) => count
    case ItemList(_, count, _) => count
    case SupporterList(_, count, _) => count
    case _ => 0
  }

  /** Some key of a non-empty map. */
  ghost function AnyKey<K, V>(m: map<K, V>): (k: K)
    requires |m| > 0
    ensures k in m
  {
    var k :| k in m; k
  }

  /** The sum of `f` over the values of a map, in no particular order. */
  ghost function SumValues<K, V>(m: map<K, V>, f: V -> nat): nat
    decreases |m|
  {
    if |m| == 0 then 0
    else
      var k := AnyKey(m);
      f(m[k]) + SumValues(m - {k}, f)
  }

  /** The sum does not depend on which key is taken first. */
  lemma {:induction false} SumValuesPick<K, V>(m: map<K, V>, f: V -> nat, k: K)
    requires k in m
    ensures SumValues(m, f) == f(m[k]) + SumValues(m - {k}, f)
    decreases |m|
  {
    var j := AnyKey(m);
    if j != k {
      var mj, mk := m - {j}, m - {k};
      assert k in mj && j in mk;
      SumValuesPick(mj, f, k);
      SumValuesPick(mk, f, j);
      assert mj - {k} == mk - {j};
    }
  }

  /** Adding a new key adds its value to the sum. */
  lemma SumValuesAdd<K, V>(m: map<K, V>, f: V -> nat, k: K, v: V)
    requires k !in m
    ensures SumValues(m[k := v], f) == f(v) + SumValues(m, f)
  {
    SumValuesPick(m[k := v], f, k);
    assert m[k := v] - {k} == m;
  }

  /**
   * Every file in `files` is a chain file of `domain`, and `from` relates it to
   * one of `entries`: the entry it was written from, its chain id and its document.
   */
  ghost predicate ChainFilesFrom<E>(domain: ChainDomain, entries: seq<E>, files: map<OutPath, OutDoc>,
                                    from: (E, int, OutDoc) -> bool)
  {
    forall p :: p in files ==>
      && p.ChainFile? && p.domain == domain
      && exists i :: 0 <= i < |entries| && from(entries[i], p.chainId, files[p])
  }

  /** A step that writes nothing, or writes one file from the last entry, keeps `ChainFilesFrom`. */
  lemma ChainFilesFromStep<E>(domain: ChainDomain, entries: seq<E>, before: map<OutPath, OutDoc>,
                              after: map<OutPath, OutDoc>, from: (E, int, OutDoc) -> bool, id: int, doc: OutDoc)
    requires entries != [] && ChainFilesFrom(domain, entries[..|entries| - 1], before, from)
    requires after == before || (after == before[ChainFile(domain, id) := doc] && from(entries[|entries| - 1], id, doc))
    ensures ChainFilesFrom(domain, entries, after, from)
  {
    var n := |entries|;
    var init := entries[..n - 1];
    forall p | p in after
      ensures p.ChainFile? && p.domain == domain
      ensures exists i :: 0 <= i < n && from(entries[i], p.chainId, after[p])
    {
      if after != before && p == ChainFile(domain, id) {
        assert from(entries[n - 1], p.chainId, after[p]);
      } else {
        assert p in before && after[p] == before[p];
        var i :| 0 <= i < n - 1 && from(init[i], p.chainId, before[p]);
        assert entries[i] == init[i];
      }
    }
  }

  /** Every entry that `writes` selects has its file, `key`, among `files`. */
  ghost predicate WritesEvery<E>(entries: seq<E>, files: map<OutPath, OutDoc>, writes: E -> bool, key: E -> OutPath)
  {
    forall i :: 0 <= i < |entries| && writes(entries[i]) ==> key(entries[i]) in files
  }

  /** A step that keeps every file, and writes the last entry's when it is selected, keeps `WritesEvery`. */
  lemma WritesEveryStep<E>(entries: seq<E>, before: map<OutPath, OutDoc>, after: map<OutPath, OutDoc>,
                           writes: E -> bool, key: E -> OutPath)
    requires entries != [] && WritesEvery(entries[..|entries| - 1], before, writes, key)
    requires before.Keys <= after.Keys
    requires writes(entries[|entries| - 1]) ==> key(entries[|entries| - 1]) in after
    ensures WritesEvery(entries, after, writes, key)
  {
    var init := entries[..|entries| - 1];
    forall i | 0 <= i < |entries| && writes(entries[i])
      ensures key(entries[i]) in after
    {
      if i < |entries| - 1 {
        assert entries[i] == init[i];
      }
    }
  }
}
