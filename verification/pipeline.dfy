/**
 * The main block: the builders in order, the donations pass-through and the
 * manifest recording every builder's count. An uncaught exception anywhere
 * ends the run before the manifest is written.
 */
module Pipeline {
  import opened Wrappers
  import opened Json
  import opened FsTree
  import opened Loader
  import opened Output
  import opened ChainLists
  import opened Events
  import opened FlatLists
  import opened Supporters

  // ----- donations -----

  /**
   * `content.donations?.length || 0` for a document that is not null: the length
   * of an array or a string, 0 when `donations` is missing or null.
   */
  function DonationCount(content: Json): (n: nat)
    ensures Field(content, "donations").Some? && Field(content, "donations").value.JArr? ==>
      n == |Field(content, "donations").value.items|
    ensures Field(content, "donations").Some? && Field(content, "donations").value.JStr? ==>
      n == |Field(content, "donations").value.s|
    ensures Field(content, "donations") == None || Field(content, "donations") == Some(JNull) ==> n == 0
  {
    match Field(content, "donations")
    case Some(JArr(items)) => |items|
    case Some(JStr(s)) => |s|
    case _ => 0
  }

  /**
   * The donations step: `data/donations.json` is copied as parsed, when it
   * exists. It aborts exactly when the file is a directory, does not parse, or
   * is null; it never warns and writes at most `donations.json`.
   */
  function Donations(root: seq<Entry>): (r: Result<Built, Fatal>)
    ensures r.Failure? <==>
      Find(root, "donations.json").Some? &&
      var node := Find(root, "donations.json").value;
      node.Dir? || node.content.Malformed? || node.content.doc == JNull
    ensures r.Success? ==> r.value.warnings == [] && r.value.files.Keys <= {DonationsFile}
    ensures r.Success? && Find(root, "donations.json").Some? ==>
      && r.value.files == map[DonationsFile := Verbatim(Find(root, "donations.json").value.content.doc)]
      && r.value.count == DonationCount(Find(root, "donations.json").value.content.doc)
  {
    match Find(root, "donations.json")
    case None => Success(Built(map[], 0, []))
    case Some(node) =>
      match ReadJson("data/donations.json", node)
      case Failure(f) => Failure(f)
      case Success(content) =>
        if content == JNull then Failure(TypeError("data/donations.json"))
        else Success(Built(map[DonationsFile := Verbatim(content)], DonationCount(content), []))
  }

  /**
   * An absent file gives a count of 0 and no output. A file that parses to an
   * object is copied unchanged, and the count is the length of its `donations`
   * array, 0 when that is absent or not an array or a string.
   */
  lemma DonationsWritten(root: seq<Entry>)
    ensures Find(root, "donations.json").None? ==> Donations(root) == Success(Built(map[], 0, []))
    ensures forall fields: map<string, Json> :: Find(root, "donations.json") == Some(File("donations.json", Parsed(JObj(fields)))) ==>
      && Donations(root).Success?
      && Donations(root).value.files == map[DonationsFile := Verbatim(JObj(fields))]
      && Donations(root).value.count == (
           if "donations" in fields && fields["donations"].JArr? then |fields["donations"].items|
           else if "donations" in fields && fields["donations"].JStr? then |fields["donations"].s|
           else 0)
  {
  }

  // ----- the run -----

  /** What the run has produced so far: the files, the warnings and each builder's count, in order. */
  datatype Run = Run(files: map<OutPath, OutDoc>, warnings: seq<Warning>, counts: seq<nat>)

  /** The next builder, run only if the earlier ones did not abort. */
  function Then(prev: Result<Run, Fatal>, next: Result<Built, Fatal>): Result<Run, Fatal>
  {
    match prev
    case Failure(f) => Failure(f)
    case Success(run) =>
      match next
      case Failure(f) => Failure(f)
      case Success(b) => Success(Run(run.files + b.files, run.warnings + b.warnings, run.counts + [b.count]))
  }

  /** Builder results run one after the other from an empty run. */
  function RunAll(rs: seq<Result<Built, Fatal>>): (r: Result<Run, Fatal>)
    ensures r.Success? ==> |r.value.counts| == |rs|
  {
    if rs == [] then Success(Run(map[], [], []))
    else Then(RunAll(rs[..|rs| - 1]), rs[|rs| - 1])
  }

  /** The eight builders' results, in the order the main block calls them. */
  ghost function BuilderResults(root: seq<Entry>, now: string): seq<Result<Built, Fatal>>
  {
    [ChainListsSpec(AddressList, root, now), EventsSpec(root, now), ChainListsSpec(TokenList, root, now),
     BuildNetworks(root, now), ItemListSpec(Apps, root, now), ItemListSpec(Organizations, root, now),
     SupportersSpec(root, now), Donations(root)]
  }

  /** The manifest built from the counts in the order the builders ran. */
  function ManifestOf(version: string, buildTime: string, counts: seq<nat>): OutDoc
    requires |counts| == 8
  {
    Manifest(version, buildTime, Counts(
      tokens := counts[2],
      networks := counts[3],
      apps := counts[4],
      organizations := counts[5],
      supporters := counts[6],
      donations := counts[7],
      events := counts[1],
      addresses := counts[0]))
  }

  /** The manifest written over a run of the eight builders that completed. */
  function WithManifest(steps: Result<Run, Fatal>, version: string, buildTime: string): Result<Run, Fatal>
    requires steps.Success? ==> |steps.value.counts| == 8
  {
    match steps
    case Failure(f) => Failure(f)
    case Success(run) => Success(run.(files := run.files[ManifestFile := ManifestOf(version, buildTime, run.counts)]))
  }

  /** The whole run; `now` stands for every builder's clock reading and `buildTime` for the manifest's. */
  ghost function BuildSpec(root: seq<Entry>, version: string, now: string, buildTime: string): Result<Run, Fatal>
  {
    WithManifest(RunAll(BuilderResults(root, now)), version, buildTime)
  }

  /** Eight results run by `RunAll` are eight `Then`s. */
  lemma RunAllEight(a0: Result<Built, Fatal>, a1: Result<Built, Fatal>, a2: Result<Built, Fatal>, a3: Result<Built, Fatal>,
                    a4: Result<Built, Fatal>, a5: Result<Built, Fatal>, a6: Result<Built, Fatal>, a7: Result<Built, Fatal>)
    ensures RunAll([a0, a1, a2, a3, a4, a5, a6, a7])
      == Then(Then(Then(Then(Then(Then(Then(Then(Success(Run(map[], [], [])), a0), a1), a2), a3), a4), a5), a6), a7)
  {
    var rs := [a0, a1, a2, a3, a4, a5, a6, a7];
    assert rs[..1][..0] == [];
    assert RunAll(rs[..1]) == Then(Success(Run(map[], [], [])), a0);
    assert rs[..2][..1] == rs[..1];
    assert RunAll(rs[..2]) == Then(RunAll(rs[..1]), a1);
    assert rs[..3][..2] == rs[..2];
    assert RunAll(rs[..3]) == Then(RunAll(rs[..2]), a2);
    assert rs[..4][..3] == rs[..3];
    assert RunAll(rs[..4]) == Then(RunAll(rs[..3]), a3);
    assert rs[..5][..4] == rs[..4];
    assert RunAll(rs[..5]) == Then(RunAll(rs[..4]), a4);
    assert rs[..6][..5] == rs[..5];
    assert RunAll(rs[..6]) == Then(RunAll(rs[..5]), a5);
    assert rs[..7][..6] == rs[..6];
    assert RunAll(rs[..7]) == Then(RunAll(rs[..6]), a6);
    assert rs[..7] == rs[..|rs| - 1];
  }

  method Step(run: Run, next: Result<Built, Fatal>) returns (r: Result<Run, Fatal>)
    ensures r == Then(Success(run), next)
  {
    if next.Failure? {
      return Failure(next.error);
    }
    return Success(Run(run.files + next.value.files, run.warnings + next.value.warnings, run.counts + [next.value.count]));
  }

  /** The main block from the first builder to the manifest. */
  method Build(root: seq<Entry>, version: string, now: string, buildTime: string) returns (r: Result<Run, Fatal>)
    ensures r == BuildSpec(root, version, now, buildTime)
  {
    RunAllEight(ChainListsSpec(AddressList, root, now), EventsSpec(root, now), ChainListsSpec(TokenList, root, now),
      BuildNetworks(root, now), ItemListSpec(Apps, root, now), ItemListSpec(Organizations, root, now),
      SupportersSpec(root, now), Donations(root));
    var run := Run(map[], [], []);
    var built := BuildAddresses(root, now);
    var next := Step(run, built);
    if next.Failure? {
      return Failure(next.error);
    }
    run := next.value;

    built := BuildEvents(root, now);
    next := Step(run, built);
    if next.Failure? {
      return Failure(next.error);
    }
    run := next.value;

    built := BuildTokens(root, now);
    next := Step(run, built);
    if next.Failure? {
      return Failure(next.error);
    }
    run := next.value;

    next := Step(run, BuildNetworks(root, now));
    if next.Failure? {
      return Failure(next.error);
    }
    run := next.value;

    built := BuildApps(root, now);
    next := Step(run, built);
    if next.Failure? {
      return Failure(next.error);
    }
    run := next.value;

    built := BuildOrganizations(root, now);
    next := Step(run, built);
    if next.Failure? {
      return Failure(next.error);
    }
    run := next.value;

    built := BuildSupporters(root, now);
    next := Step(run, built);
    if next.Failure? {
      return Failure(next.error);
    }
    run := next.value;

    next := Step(run, Donations(root));
    if next.Failure? {
      return Failure(next.error);
    }
    run := next.value;

    var manifest := ManifestOf(version, buildTime, run.counts);
    return Success(run.(files := run.files[ManifestFile := manifest]));
  }

  // ----- what the run writes -----

  /**
   * A run completes only when every builder does; it then holds one count per
   * builder, in order.
   */
  lemma {:induction false} RunAllCompletes(rs: seq<Result<Built, Fatal>>)
    requires RunAll(rs).Success?
    ensures forall i :: 0 <= i < |rs| ==> rs[i].Success?
    ensures |RunAll(rs).value.counts| == |rs|
    ensures forall i :: 0 <= i < |rs| ==> RunAll(rs).value.counts[i] == rs[i].value.count
  {
    if rs != [] {
      var prefix := rs[..|rs| - 1];
      RunAllCompletes(prefix);
      assert forall i :: 0 <= i < |prefix| ==> rs[i] == prefix[i];
    }
  }

  /**
   * The run completes only when every builder does, and the manifest then
   * records, under each name, the count the corresponding builder returned.
   */
  lemma ManifestRecordsCounts(root: seq<Entry>, version: string, now: string, buildTime: string)
    requires BuildSpec(root, version, now, buildTime).Success?
    ensures ChainListsSpec(AddressList, root, now).Success? && EventsSpec(root, now).Success?
    ensures ChainListsSpec(TokenList, root, now).Success? && BuildNetworks(root, now).Success?
    ensures ItemListSpec(Apps, root, now).Success? && ItemListSpec(Organizations, root, now).Success?
    ensures SupportersSpec(root, now).Success? && Donations(root).Success?
    ensures var files := BuildSpec(root, version, now, buildTime).value.files;
      && ManifestFile in files
      && files[ManifestFile] == Manifest(version, buildTime, Counts(
           tokens := ChainListsSpec(TokenList, root, now).value.count,
           networks := BuildNetworks(root, now).value.count,
           apps := ItemListSpec(Apps, root, now).value.count,
           organizations := ItemListSpec(Organizations, root, now).value.count,
           supporters := SupportersSpec(root, now).value.count,
           donations := Donations(root).value.count,
           events := EventsSpec(root, now).value.count,
           addresses := ChainListsSpec(AddressList, root, now).value.count))
  {
    var rs := BuilderResults(root, now);
    RunAllCompletes(rs);
    assert forall i :: 0 <= i < 8 ==> rs[i].Success?;
  }

  /** When no builder writes a file an earlier one wrote. */
  ghost predicate DisjointFiles(rs: seq<Result<Built, Fatal>>)
  {
    forall i, j, p :: 0 <= i < j < |rs| && rs[i].Success? && rs[j].Success? && p in rs[i].value.files ==>
      p !in rs[j].value.files
  }

  /** No two builders write files with the same name under the output directory. */
  lemma BuildersWriteDistinctFileNames(root: seq<Entry>, now: string)
    ensures var rs := BuilderResults(root, now);
      forall i, j, p, q ::
        0 <= i < j < |rs| && rs[i].Success? && rs[j].Success? && p in rs[i].value.files && q in rs[j].value.files
        ==> p.Path() != q.Path()
  {
    var rs := BuilderResults(root, now);
    BuildersWriteDisjointFiles(root, now);
    forall i, j, p, q | 0 <= i < j < |rs| && rs[i].Success? && rs[j].Success? &&
        p in rs[i].value.files && q in rs[j].value.files
      ensures p.Path() != q.Path()
    {
      if p.Path() == q.Path() {
        PathInjective(p, q);
      }
    }
  }

  lemma RunAllLast(rs: seq<Result<Built, Fatal>>)
    requires rs != [] && RunAll(rs).Success?
    ensures RunAll(rs[..|rs| - 1]).Success? && rs[|rs| - 1].Success?
    ensures RunAll(rs).value.files == RunAll(rs[..|rs| - 1]).value.files + rs[|rs| - 1].value.files
  {
  }

  /** When no two builders write the same file, the run keeps every file as its builder wrote it. */
  lemma {:induction false} RunAllKeepsFiles(rs: seq<Result<Built, Fatal>>)
    requires RunAll(rs).Success? && DisjointFiles(rs)
    ensures forall i :: 0 <= i < |rs| ==> rs[i].Success?
    ensures forall i, p :: 0 <= i < |rs| && p in rs[i].value.files ==>
      p in RunAll(rs).value.files && RunAll(rs).value.files[p] == rs[i].value.files[p]
    ensures forall p :: p in RunAll(rs).value.files ==> exists i :: 0 <= i < |rs| && p in rs[i].value.files
  {
    RunAllCompletes(rs);
    if rs != [] {
      var n := |rs| - 1;
      var prefix := rs[..n];
      RunAllLast(rs);
      assert forall i :: 0 <= i < n ==> rs[i] == prefix[i];
      RunAllKeepsFiles(prefix);
      var before := RunAll(prefix).value.files;
      var last := rs[n].value.files;
      forall i, p | 0 <= i < |rs| && p in rs[i].value.files
        ensures p in RunAll(rs).value.files && RunAll(rs).value.files[p] == rs[i].value.files[p]
      {
        if i < n {
          assert prefix[i] == rs[i];
          assert p !in last;
        }
      }
      forall p | p in RunAll(rs).value.files
        ensures exists i :: 0 <= i < |rs| && p in rs[i].value.files
      {
        if p !in last {
          var i :| 0 <= i < n && p in prefix[i].value.files;
          assert rs[i] == prefix[i];
        }
      }
    }
  }

  /** The output files builder `i` may write; no two builders share one and none writes the manifest. */
  predicate Owns(i: int, p: OutPath)
  {
    match p
    case ChainFile(d, _) =>
      (d == AddressesDomain && i == 0) || (d == EventsDomain && i == 1) || (d == TokensDomain && i == 2)
    case NetworksFile => i == 3
    case AppsFile => i == 4
    case OrganizationsFile => i == 5
    case SupportersFile => i == 6
    case DonationsFile => i == 7
    case ManifestFile => false
  }

  /** `buildAddresses` and `buildTokens` write only into their own domain. */
  lemma ChainListsOwnTheirFiles(list: ListDomain, root: seq<Entry>, now: string)
    requires ChainListsSpec(list, root, now).Success?
    ensures forall p :: p in ChainListsSpec(list, root, now).value.files ==> p.ChainFile? && p.domain == Domain(list)
  {
    match Find(root, DirName(list))
    case None =>
    case Some(File(_, _)) =>
    case Some(Dir(_, chains)) =>
      ChainFilesWritten(list, "data/" + DirName(list), chains, now);
  }

  lemma EventsOwnTheirFiles(root: seq<Entry>, now: string)
    requires EventsSpec(root, now).Success?
    ensures forall p :: p in EventsSpec(root, now).value.files ==> p.ChainFile? && p.domain == EventsDomain
  {
    match Find(root, "events")
    case None =>
    case Some(File(_, _)) =>
    case Some(Dir(_, chains)) =>
      EventFilesWritten("data/events", chains, now);
  }

  lemma OwnsUnique(i: int, j: int, p: OutPath)
    requires Owns(i, p) && Owns(j, p)
    ensures i == j
  {
  }

  lemma NetworksOwnTheirFile(root: seq<Entry>, now: string)
    requires BuildNetworks(root, now).Success?
    ensures forall p :: p in BuildNetworks(root, now).value.files ==> p == NetworksFile
  {
  }

  lemma ItemListOwnsItsFile(d: ItemDomain, root: seq<Entry>, now: string)
    requires ItemListSpec(d, root, now).Success?
    ensures forall p :: p in ItemListSpec(d, root, now).value.files ==> p == ItemFile(d)
  {
    match Find(root, ItemDir(d))
    case None =>
    case Some(File(_, _)) =>
    case Some(Dir(_, children)) =>
  }

  lemma SupportersOwnTheirFile(root: seq<Entry>, now: string)
    requires SupportersSpec(root, now).Success?
    ensures forall p :: p in SupportersSpec(root, now).value.files ==> p == SupportersFile
  {
  }

  lemma DonationsOwnTheirFile(root: seq<Entry>)
    requires Donations(root).Success?
    ensures forall p :: p in Donations(root).value.files ==> p == DonationsFile
  {
  }

  /** The eight builders each write only files of their own. */
  lemma BuildersOwnTheirFiles(root: seq<Entry>, now: string, i: int, p: OutPath)
    requires 0 <= i < 8 && BuilderResults(root, now)[i].Success? && p in BuilderResults(root, now)[i].value.files
    ensures Owns(i, p)
  {
    var rs := BuilderResults(root, now);
    if i == 0 {
      ChainListsOwnTheirFiles(AddressList, root, now);
    } else if i == 1 {
      EventsOwnTheirFiles(root, now);
    } else if i == 2 {
      ChainListsOwnTheirFiles(TokenList, root, now);
    } else if i == 3 {
      NetworksOwnTheirFile(root, now);
    } else if i == 4 {
      ItemListOwnsItsFile(Apps, root, now);
    } else if i == 5 {
      ItemListOwnsItsFile(Organizations, root, now);
    } else if i == 6 {
      SupportersOwnTheirFile(root, now);
    } else {
      DonationsOwnTheirFile(root);
    }
  }

  lemma BuildersWriteDisjointFiles(root: seq<Entry>, now: string)
    ensures DisjointFiles(BuilderResults(root, now))
  {
    var rs := BuilderResults(root, now);
    forall i, j, p | 0 <= i < j < |rs| && rs[i].Success? && rs[j].Success? && p in rs[i].value.files
      ensures p !in rs[j].value.files
    {
      BuildersOwnTheirFiles(root, now, i, p);
      if p in rs[j].value.files {
        BuildersOwnTheirFiles(root, now, j, p);
        OwnsUnique(i, j, p);
      }
    }
  }

  /**
   * Every file a builder wrote is in the output as that builder wrote it, no
   * builder overwriting another's file, and the output holds nothing else but
   * the manifest.
   */
  lemma OutputHoldsEveryBuilderFile(root: seq<Entry>, version: string, now: string, buildTime: string)
    requires BuildSpec(root, version, now, buildTime).Success?
    ensures forall i :: 0 <= i < 8 ==> BuilderResults(root, now)[i].Success?
    ensures var files := BuildSpec(root, version, now, buildTime).value.files;
      forall i, p :: 0 <= i < 8 && p in BuilderResults(root, now)[i].value.files ==>
        p in files && files[p] == BuilderResults(root, now)[i].value.files[p]
    ensures var files := BuildSpec(root, version, now, buildTime).value.files;
      forall p :: p in files && p != ManifestFile ==> exists i :: 0 <= i < 8 && p in BuilderResults(root, now)[i].value.files
  {
    var rs := BuilderResults(root, now);
    BuildersWriteDisjointFiles(root, now);
    NoBuilderWritesManifest(root, now);
    assert BuildSpec(root, version, now, buildTime) == WithManifest(RunAll(rs), version, buildTime);
    ManifestKeepsFiles(rs, version, buildTime);
  }

  /** Only the main block writes `manifest.json`. */
  lemma NoBuilderWritesManifest(root: seq<Entry>, now: string)
    ensures var rs := BuilderResults(root, now);
      forall i, p :: 0 <= i < 8 && rs[i].Success? && p in rs[i].value.files ==> p != ManifestFile
  {
    var rs := BuilderResults(root, now);
    forall i, p | 0 <= i < 8 && rs[i].Success? && p in rs[i].value.files
      ensures p != ManifestFile
    {
      BuildersOwnTheirFiles(root, now, i, p);
    }
  }

  lemma ManifestKeepsFiles(rs: seq<Result<Built, Fatal>>, version: string, buildTime: string)
    requires |rs| == 8 && WithManifest(RunAll(rs), version, buildTime).Success? && DisjointFiles(rs)
    requires forall i, p :: 0 <= i < 8 && rs[i].Success? && p in rs[i].value.files ==> p != ManifestFile
    ensures forall i :: 0 <= i < 8 ==> rs[i].Success?
    ensures var files := WithManifest(RunAll(rs), version, buildTime).value.files;
      forall i, p :: 0 <= i < 8 && p in rs[i].value.files ==> p in files && files[p] == rs[i].value.files[p]
    ensures var files := WithManifest(RunAll(rs), version, buildTime).value.files;
      forall p :: p in files && p != ManifestFile ==> exists i :: 0 <= i < 8 && p in rs[i].value.files
  {
    RunAllKeepsFiles(rs);
    RunAllCompletes(rs);
  }
}
