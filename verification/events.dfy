/**
 * `buildEvents`: per chain directory, the `common.json` events and a map from
 * address (file name without `.json`) to that address's events. A chain is
 * written when the number of event keys it holds is not zero.
 */
module Events {
  import opened Wrappers
  import opened Json
  import opened JsParseInt
  import opened FsTree
  import opened Loader
  import opened Output
  import opened ChainLists

  // ----- the address key -----

  /** `.json` occurs in `s` at index `i`. */
  predicate JsonAt(s: string, i: int)
  {
    0 <= i && i + 5 <= |s| && s[i..i + 5] == ".json"
  }

  /** `s.replace(".json", "")`: only the first occurrence is removed. */
  function StripJson(s: string): string
    decreases |s|
  {
    if |s| < 5 then s
    else if s[..5] == ".json" then s[5..]
    else [s[0]] + StripJson(s[1..])
  }

  /**
   * A name either loses exactly five characters or stays as it is, and a name
   * ending in `.json` always loses them.
   */
  lemma {:induction false} StripJsonLength(s: string)
    ensures |StripJson(s)| == |s| - 5 || StripJson(s) == s
    ensures EndsWith(s, ".json") ==> |StripJson(s)| == |s| - 5
    decreases |s|
  {
    if |s| >= 5 && s[..5] != ".json" {
      var t := s[1..];
      assert StripJson(s) == [s[0]] + StripJson(t);
      StripJsonLength(t);
      if EndsWith(s, ".json") {
        EndsWithTail(s);
      }
      if StripJson(t) == t {
        assert s == [s[0]] + t;
      }
    }
  }

  /** A name ending in `.json` that does not start with it still ends with it after its first letter. */
  lemma EndsWithTail(s: string)
    requires |s| >= 5 && s[..5] != ".json" && EndsWith(s, ".json")
    ensures EndsWith(s[1..], ".json")
  {
    assert s[1..][|s| - 6..] == s[|s| - 5..];
  }

  lemma JsonAtTail(s: string, j: int)
    requires |s| > 0 && j >= 0
    ensures JsonAt(s[1..], j) <==> JsonAt(s, j + 1)
  {
    if j + 6 <= |s| {
      assert s[1..][j..j + 5] == s[j + 1..j + 6];
    }
  }

  /** Removing the first occurrence: everything before it and everything after it. */
  lemma {:induction false} StripJsonFirst(s: string, i: int)
    requires JsonAt(s, i)
    requires forall j :: 0 <= j < i ==> !JsonAt(s, j)
    ensures StripJson(s) == s[..i] + s[i + 5..]
    decreases i
  {
    if i == 0 {
      assert s[..5] == s[0..5];
    } else {
      var t := s[1..];
      assert StripJson(s) == [s[0]] + StripJson(t) by {
        assert !JsonAt(s, 0) && s[..5] == s[0..5];
      }
      JsonAtTail(s, i - 1);
      forall j | 0 <= j < i - 1
        ensures !JsonAt(t, j)
      {
        JsonAtTail(s, j);
      }
      StripJsonFirst(t, i - 1);
      ConsSplice(s, i);
    }
  }

  lemma ConsSplice(s: string, i: int)
    requires 1 <= i && i + 5 <= |s|
    ensures [s[0]] + (s[1..][..i - 1] + s[1..][i + 4..]) == s[..i] + s[i + 5..]
  {
    assert s[..i] == [s[0]] + s[1..][..i - 1];
    assert s[i + 5..] == s[1..][i + 4..];
  }

  /** A name without `.json` in it is left as it is. */
  lemma {:induction false} StripJsonAbsent(s: string)
    requires forall j :: !JsonAt(s, j)
    ensures StripJson(s) == s
    decreases |s|
  {
    if |s| >= 5 {
      assert !JsonAt(s, 0) && s[..5] == s[0..5];
      var t := s[1..];
      forall j
        ensures !JsonAt(t, j)
      {
        if j >= 0 {
          JsonAtTail(s, j);
        }
      }
      StripJsonAbsent(t);
      assert s == [s[0]] + t;
    }
  }

  /** A `.json` file whose stem has no dot is keyed by that stem. */
  lemma StripJsonOfStem(stem: string)
    requires '.' !in stem
    ensures StripJson(stem + ".json") == stem
  {
    var s := stem + ".json";
    var i := |stem|;
    assert s[i..i + 5] == ".json";
    forall j | 0 <= j < i
      ensures !JsonAt(s, j)
    {
      assert s[j] == stem[j];
    }
    StripJsonFirst(s, i);
    assert s[..i] == stem;
  }

  /** The first occurrence of `.json` in a name that ends with it. */
  lemma {:induction false} FirstJsonAt(s: string, n: int) returns (i: int)
    requires 0 <= n <= |s| - 5 && JsonAt(s, |s| - 5)
    requires forall j :: 0 <= j < n ==> !JsonAt(s, j)
    ensures n <= i <= |s| - 5 && JsonAt(s, i)
    ensures forall j :: 0 <= j < i ==> !JsonAt(s, j)
    decreases |s| - n
  {
    if JsonAt(s, n) {
      i := n;
    } else {
      i := FirstJsonAt(s, n + 1);
    }
  }

  /**
   * No file other than `common.json` itself is keyed `common`: a name ending in
   * `.json` whose first `.json` removed leaves `common` is `common.json`.
   */
  lemma OnlyCommonJsonIsKeyedCommon(name: string)
    requires EndsWith(name, ".json")
    requires StripJson(name) == "common"
    ensures name == "common.json"
  {
    assert JsonAt(name, |name| - 5);
    var i := FirstJsonAt(name, 0);
    StripJsonFirst(name, i);
    var r := StripJson(name);
    assert |r| == |name| - 5;
    assert |name| == 11;
    assert name[6] == '.' by {
      assert name[6..11] == ".json";
    }
    assert r[1] == 'o';
    EarlyJsonKeepsLaterDot(name, i);
    OverlappingJsonHasNoDot(name, i);
    if i == 6 {
      assert name[..6] == r;
      assert name == name[..6] + name[6..];
    }
  }

  /** Removing a `.json` that starts at index 0 or 1 moves index 6 to index 1. */
  lemma EarlyJsonKeepsLaterDot(name: string, i: int)
    ensures 0 <= i <= 1 && JsonAt(name, i) && |name| >= 7 ==> (name[..i] + name[i + 5..])[1] == name[6]
  {
  }

  /** Two `.json`s cannot overlap: one starting at 2 to 5 leaves a letter at index 6. */
  lemma OverlappingJsonHasNoDot(name: string, i: int)
    ensures 2 <= i <= 5 && JsonAt(name, i) && |name| >= 7 ==> name[6] != '.'
  {
    if 2 <= i <= 5 && JsonAt(name, i) && |name| >= 7 {
      assert name[6] == name[i..i + 5][6 - i];
    }
  }

  // ----- one chain directory -----

  /** The message `readFileSync` throws for a directory. */
  const IsADirectoryMessage := "EISDIR: illegal operation on a directory, read"

  /** `common.json` as loaded: its document, `{}` when it is absent or unreadable. */
  datatype Common = Common(doc: Json, warnings: seq<Warning>)

  function LoadCommon(chainPath: string, entries: seq<Entry>): Common
  {
    var path := Join(chainPath, "common.json");
    match Find(entries, "common.json")
    case None => Common(JObj(map[]), [])
    case Some(Dir(_, _)) => Common(JObj(map[]), [Warning(path, IsADirectoryMessage)])
    case Some(File(_, Parsed(doc))) => Common(doc, [])
    case Some(File(_, Malformed(err))) => Common(JObj(map[]), [Warning(path, err)])
  }

  /**
   * `commonEvents` stays `{}` unless `common.json` is a file that parsed, in
   * which case it is that document; a directory or a parse failure in its place
   * is logged once, with its path.
   */
  lemma LoadCommonReads(chainPath: string, entries: seq<Entry>)
    ensures var found, c := Find(entries, "common.json"), LoadCommon(chainPath, entries);
      if found.Some? && found.value.File? && found.value.content.Parsed? then c == Common(found.value.content.doc, [])
      else c.doc == JObj(map[])
    ensures var found, c := Find(entries, "common.json"), LoadCommon(chainPath, entries);
      if found.Some? && !(found.value.File? && found.value.content.Parsed?) then
        |c.warnings| == 1 && c.warnings[0].path == Join(chainPath, "common.json")
      else c.warnings == []
  {
  }

  /** An entry the inner loop keeps: a file ending in `.json` other than `common.json`. */
  predicate IsAddressFile(e: Entry)
  {
    e.File? && EndsWith(e.name, ".json") && e.name != "common.json"
  }

  /** The address events of one chain directory and the parse failures logged. */
  datatype AddressEvents = AddressEvents(events: map<string, Json>, warnings: seq<Warning>)

  /** What the loop over the chain directory's entries has built once it has seen them all. */
  function AddressEventsOf(chainPath: string, entries: seq<Entry>): AddressEvents
    decreases entries
  {
    if entries == [] then AddressEvents(map[], [])
    else
      var prev := AddressEventsOf(chainPath, entries[..|entries| - 1]);
      var e := entries[|entries| - 1];
      if !IsAddressFile(e) then prev
      else
        match e.content
        case Parsed(doc) => AddressEvents(prev.events[StripJson(e.name) := doc], prev.warnings)
        case Malformed(err) => AddressEvents(prev.events, prev.warnings + [Warning(Join(chainPath, e.name), err)])
  }

  method LoadAddressEvents(chainPath: string, entries: seq<Entry>) returns (r: AddressEvents)
    ensures r == AddressEventsOf(chainPath, entries)
  {
    var events: map<string, Json> := map[];
    var warnings: seq<Warning> := [];
    var i := 0;
    while i < |entries|
      invariant 0 <= i <= |entries|
      invariant AddressEvents(events, warnings) == AddressEventsOf(chainPath, entries[..i])
    {
      var e := entries[i];
      assert entries[..i + 1][..i] == entries[..i];
      if e.File? && EndsWith(e.name, ".json") && e.name != "common.json" {
        var address := StripJson(e.name);
        match e.content
        case Parsed(doc) =>
          events := events[address := doc];
        case Malformed(err) =>
          warnings := warnings + [Warning(Join(chainPath, e.name), err)];
      }
      i := i + 1;
    }
    assert entries[..i] == entries;
    r := AddressEvents(events, warnings);
  }

  /** Entry `i` is an address file that parsed and is keyed `k`. */
  predicate ParsedAddressAt(entries: seq<Entry>, i: int, k: string)
  {
    0 <= i < |entries| && IsAddressFile(entries[i]) && entries[i].content.Parsed?
    && StripJson(entries[i].name) == k
  }

  /** The last entry adds its key to the map when it is an address file that parsed, and nothing otherwise. */
  lemma AddressEventsLast(chainPath: string, entries: seq<Entry>)
    requires entries != []
    ensures var init, e := entries[..|entries| - 1], entries[|entries| - 1];
      AddressEventsOf(chainPath, entries).events ==
        if IsAddressFile(e) && e.content.Parsed? then AddressEventsOf(chainPath, init).events[StripJson(e.name) := e.content.doc]
        else AddressEventsOf(chainPath, init).events
  {
  }

  lemma ParsedAddressAtPrefix(entries: seq<Entry>)
    requires entries != []
    ensures forall i, k :: 0 <= i < |entries| - 1 ==>
      (ParsedAddressAt(entries[..|entries| - 1], i, k) <==> ParsedAddressAt(entries, i, k))
  {
    var init := entries[..|entries| - 1];
    forall i, k | 0 <= i < |entries| - 1
      ensures ParsedAddressAt(init, i, k) <==> ParsedAddressAt(entries, i, k)
    {
      assert init[i] == entries[i];
    }
  }

  /** The address map is keyed by exactly the stems of the address files that parsed. */
  lemma {:induction false} AddressKeys(chainPath: string, entries: seq<Entry>)
    ensures forall k :: k in AddressEventsOf(chainPath, entries).events <==> exists i :: ParsedAddressAt(entries, i, k)
  {
    if entries != [] {
      var n := |entries|;
      var init := entries[..n - 1];
      AddressKeys(chainPath, init);
      AddressEventsLast(chainPath, entries);
      ParsedAddressAtPrefix(entries);
      var prev := AddressEventsOf(chainPath, init).events;
      var events := AddressEventsOf(chainPath, entries).events;
      forall k
        ensures k in events <==> exists i :: ParsedAddressAt(entries, i, k)
      {
        if k in events && !ParsedAddressAt(entries, n - 1, k) {
          assert k in prev;
          var i :| ParsedAddressAt(init, i, k);
          assert ParsedAddressAt(entries, i, k);
        }
        if exists i :: ParsedAddressAt(entries, i, k) {
          var i :| ParsedAddressAt(entries, i, k);
          if i < n - 1 {
            assert ParsedAddressAt(init, i, k);
          }
        }
      }
    }
  }

  /** Each key holds the document of the last address file with that stem. */
  lemma {:induction false} AddressKeysLastWins(chainPath: string, entries: seq<Entry>)
    ensures forall k :: k in AddressEventsOf(chainPath, entries).events ==> exists i :: (ParsedAddressAt(entries, i, k)
      && AddressEventsOf(chainPath, entries).events[k] == entries[i].content.doc
      && forall j :: i < j < |entries| ==> !ParsedAddressAt(entries, j, k))
  {
    if entries != [] {
      var n := |entries|;
      var init := entries[..n - 1];
      AddressKeysLastWins(chainPath, init);
      AddressEventsLast(chainPath, entries);
      ParsedAddressAtPrefix(entries);
      var prev := AddressEventsOf(chainPath, init).events;
      var events := AddressEventsOf(chainPath, entries).events;
      forall k | k in events
        ensures exists i :: (ParsedAddressAt(entries, i, k)
          && events[k] == entries[i].content.doc
          && forall j :: i < j < n ==> !ParsedAddressAt(entries, j, k))
      {
        if ParsedAddressAt(entries, n - 1, k) {
          assert events[k] == entries[n - 1].content.doc;
        } else {
          var i :| ParsedAddressAt(init, i, k)
            && prev[k] == init[i].content.doc
            && forall j :: i < j < n - 1 ==> !ParsedAddressAt(init, j, k);
          assert ParsedAddressAt(entries, i, k);
          assert events[k] == prev[k];
        }
      }
    }
  }

  /** `common.json` never becomes an address: no address is keyed `common`. */
  lemma CommonIsNeverAnAddress(chainPath: string, entries: seq<Entry>)
    ensures "common" !in AddressEventsOf(chainPath, entries).events
  {
    AddressKeys(chainPath, entries);
    if "common" in AddressEventsOf(chainPath, entries).events {
      assert exists i :: ParsedAddressAt(entries, i, "common");
      var i :| ParsedAddressAt(entries, i, "common");
      OnlyCommonJsonIsKeyedCommon(entries[i].name);
    }
  }

  // ----- the event count -----

  /** `Object.keys(v).length` for a value that is not null. */
  function Keys(v: Json): nat
  {
    match KeyCount(v)
    case Some(n) => n
    case None => 0
  }

  predicate HasNull(events: map<string, Json>)
  {
    exists k :: k in events && events[k] == JNull
  }

  /**
   * The `reduce` over the address maps: the sum of their key counts, or None
   * when one of them is null and `Object.keys` throws.
   */
  ghost function AddressEventCount(events: map<string, Json>): Option<nat>
  {
    if HasNull(events) then None else Some(SumValues(events, Keys))
  }

  /** `commonCount + addressCount`, or None when either `Object.keys` throws. */
  ghost function EventCount(common: Json, events: map<string, Json>): Option<nat>
  {
    if common == JNull then None
    else
      match AddressEventCount(events)
      case None => None
      case Some(n) => Some(Keys(common) + n)
  }

  /** The `reduce`, visiting the address maps in whatever order `Object.values` lists them. */
  method CountAddressEvents(events: map<string, Json>) returns (r: Option<nat>)
    ensures r == AddressEventCount(events)
  {
    var rest := events;
    var sum: nat := 0;
    while |rest| > 0
      invariant Counted(rest, events, sum)
      decreases |rest|
    {
      var k :| k in rest;
      if rest[k] == JNull {
        NullFound(rest, events, sum, k);
        return None;
      }
      Visit(rest, events, sum, k);
      sum := sum + Keys(rest[k]);
      rest := rest - {k};
    }
    NothingLeft(rest, events, sum);
    return Some(sum);
  }

  /**
   * The loop's invariant: `rest` is what is left of `events`, no value already
   * visited is null, and `sum` holds the key counts of those visited.
   */
  ghost predicate Counted(rest: map<string, Json>, events: map<string, Json>, sum: nat)
  {
    && (forall k :: k in rest ==> k in events && rest[k] == events[k])
    && (forall k :: k in events && k !in rest ==> events[k] != JNull)
    && sum + SumValues(rest, Keys) == SumValues(events, Keys)
  }

  /** Visiting a value that is not null moves its key count into the sum. */
  lemma Visit(rest: map<string, Json>, events: map<string, Json>, sum: nat, k: string)
    requires Counted(rest, events, sum) && k in rest && rest[k] != JNull
    ensures Counted(rest - {k}, events, sum + Keys(rest[k]))
    ensures |rest - {k}| < |rest|
  {
    SumValuesPick(rest, Keys, k);
  }

  lemma NullFound(rest: map<string, Json>, events: map<string, Json>, sum: nat, k: string)
    requires Counted(rest, events, sum) && k in rest && rest[k] == JNull
    ensures AddressEventCount(events) == None
  {
    assert events[k] == JNull;
  }

  lemma NothingLeft(rest: map<string, Json>, events: map<string, Json>, sum: nat)
    requires |rest| == 0 && Counted(rest, events, sum)
    ensures AddressEventCount(events) == Some(sum)
  {
    assert rest == map[];
  }

  // ----- the loop over chain directories -----

  /** The event count of one chain directory. */
  ghost function ChainEventCount(dir: string, e: Entry): Option<nat>
    requires e.Dir?
  {
    var path := Join(dir, e.name);
    EventCount(LoadCommon(path, e.children).doc, AddressEventsOf(path, e.children).events)
  }

  /** The warnings one chain directory logs: `common.json` first, then the address files. */
  function ChainWarnings(dir: string, e: Entry): seq<Warning>
    requires e.Dir?
  {
    var path := Join(dir, e.name);
    LoadCommon(path, e.children).warnings + AddressEventsOf(path, e.children).warnings
  }

  /** The document written for one chain directory whose event count is `n`. */
  function ChainEventsDoc(dir: string, e: Entry, now: string, n: nat): OutDoc
    requires IsChainDir(e)
  {
    var path := Join(dir, e.name);
    ChainEvents(ParseInt(e.name).value, now, n, LoadCommon(path, e.children).doc, AddressEventsOf(path, e.children).events)
  }

  /** One iteration of the loop over the entries of `data/events`. */
  ghost function EventsStep(dir: string, acc: Acc, e: Entry, now: string): Result<Acc, Fatal>
  {
    if !IsChainDir(e) then Success(acc)
    else
      var warnings := acc.warnings + ChainWarnings(dir, e);
      match ChainEventCount(dir, e)
      case None => Failure(TypeError(Join(dir, e.name)))
      case Some(n) =>
        if n == 0 then Success(acc.(warnings := warnings))
        else
          var key := ChainFile(EventsDomain, ParseInt(e.name).value);
          Success(Acc(acc.files[key := ChainEventsDoc(dir, e, now, n)], acc.total + n, warnings))
  }

  ghost function EventsFold(dir: string, entries: seq<Entry>, now: string): Result<Acc, Fatal>
  {
    if entries == [] then Success(Acc(map[], 0, []))
    else
      match EventsFold(dir, entries[..|entries| - 1], now)
      case Failure(f) => Failure(f)
      case Success(acc) => EventsStep(dir, acc, entries[|entries| - 1], now)
  }

  /** The whole builder: a missing `data/events` writes nothing and counts 0. */
  ghost function EventsSpec(root: seq<Entry>, now: string): Result<Built, Fatal>
  {
    match Find(root, "events")
    case None => Success(Built(map[], 0, []))
    case Some(File(_, _)) => Failure(NotADirectory("data/events"))
    case Some(Dir(_, chains)) =>
      match EventsFold("data/events", chains, now)
      case Failure(f) => Failure(f)
      case Success(acc) => Success(Built(acc.files, acc.total, acc.warnings))
  }

  lemma {:induction false} EventsFailurePersists(dir: string, entries: seq<Entry>, i: nat, now: string)
    requires i <= |entries| && EventsFold(dir, entries[..i], now).Failure?
    ensures EventsFold(dir, entries, now) == EventsFold(dir, entries[..i], now)
    decreases |entries| - i
  {
    if i < |entries| {
      assert entries[..i + 1][..i] == entries[..i];
      EventsFailurePersists(dir, entries, i + 1, now);
    } else {
      assert entries[..i] == entries;
    }
  }

  /** The body of the loop for one entry of `data/events`. */
  method BuildChainEvents(dir: string, acc: Acc, chainDir: Entry, now: string) returns (r: Result<Acc, Fatal>)
    ensures r == EventsStep(dir, acc, chainDir, now)
  {
    if !chainDir.Dir? {
      return Success(acc);
    }
    var chainId := ParseInt(chainDir.name);
    if chainId.None? {
      return Success(acc);
    }
    var chainPath := Join(dir, chainDir.name);
    var common := LoadCommon(chainPath, chainDir.children);
    var addresses := LoadAddressEvents(chainPath, chainDir.children);
    var warnings := acc.warnings + (common.warnings + addresses.warnings);
    if common.doc == JNull {
      return Failure(TypeError(chainPath));
    }
    var addressCount := CountAddressEvents(addresses.events);
    if addressCount.None? {
      return Failure(TypeError(chainPath));
    }
    var eventCount := Keys(common.doc) + addressCount.value;
    if eventCount == 0 {
      return Success(acc.(warnings := warnings));
    }
    var output := ChainEvents(chainId.value, now, eventCount, common.doc, addresses.events);
    return Success(Acc(acc.files[ChainFile(EventsDomain, chainId.value) := output], acc.total + eventCount, warnings));
  }

  /** `buildEvents`. */
  method BuildEvents(root: seq<Entry>, now: string) returns (r: Result<Built, Fatal>)
    ensures r == EventsSpec(root, now)
  {
    var dir := "data/events";
    var node := Find(root, "events");
    if node.None? {
      return Success(Built(map[], 0, []));
    }
    if node.value.File? {
      return Failure(NotADirectory(dir));
    }
    var chains := node.value.children;
    var acc := Acc(map[], 0, []);
    var i := 0;
    while i < |chains|
      invariant 0 <= i <= |chains|
      invariant EventsFold(dir, chains[..i], now) == Success(acc)
    {
      assert chains[..i + 1][..i] == chains[..i];
      var next := BuildChainEvents(dir, acc, chains[i], now);
      if next.Failure? {
        EventsFailurePersists(dir, chains, i + 1, now);
        return Failure(next.error);
      }
      acc := next.value;
      i := i + 1;
    }
    assert chains[..i] == chains;
    return Success(Built(acc.files, acc.total, acc.warnings));
  }

  // ----- what the loop writes -----

  /** What one step adds to the files and to the total. */
  lemma EventsStepWrites(dir: string, acc: Acc, e: Entry, now: string)
    requires EventsStep(dir, acc, e, now).Success?
    ensures IsChainDir(e) ==> ChainEventCount(dir, e).Some?
    ensures EventsStep(dir, acc, e, now).value.total
      == acc.total + if IsChainDir(e) then ChainEventCount(dir, e).value else 0
    ensures !IsChainDir(e) || ChainEventCount(dir, e) == Some(0) ==>
      EventsStep(dir, acc, e, now).value.files == acc.files
    ensures IsChainDir(e) && ChainEventCount(dir, e) != Some(0) ==>
      EventsStep(dir, acc, e, now).value.files == acc.files[ChainFile(EventsDomain, ParseInt(e.name).value) :=
        ChainEventsDoc(dir, e, now, ChainEventCount(dir, e).value)]
  {
  }

  /** The file written for chain directory `e`, when its event count is not zero. */
  ghost predicate EventsWrittenFrom(dir: string, e: Entry, now: string, chainId: int, doc: OutDoc)
  {
    && IsChainDir(e) && ParseInt(e.name) == Some(chainId)
    && var path := Join(dir, e.name);
    && doc.ChainEvents?
    && doc == ChainEvents(chainId, now, doc.count, LoadCommon(path, e.children).doc, AddressEventsOf(path, e.children).events)
    && doc.count > 0
    && ChainEventCount(dir, e) == Some(doc.count)
  }

  /** `EventsWrittenFrom` as a relation between an entry, a chain id and a document. */
  ghost function EventsWrittenBy(dir: string, now: string): (Entry, int, OutDoc) -> bool
  {
    (e, chainId, doc) => EventsWrittenFrom(dir, e, now, chainId, doc)
  }

  /**
   * Every file written is `events/<id>.json` for some directory whose name
   * parses to `id` and whose event count is not zero; it holds that
   * directory's common and address events and the count.
   */
  lemma {:induction false} EventFilesWritten(dir: string, entries: seq<Entry>, now: string)
    requires EventsFold(dir, entries, now).Success?
    ensures ChainFilesFrom(EventsDomain, entries, EventsFold(dir, entries, now).value.files, EventsWrittenBy(dir, now))
  {
    if entries != [] {
      var n := |entries|;
      var init, e := entries[..n - 1], entries[n - 1];
      EventFilesWritten(dir, init, now);
      var acc := EventsFold(dir, init, now).value;
      EventsStepWrites(dir, acc, e, now);
      var written := IsChainDir(e) && ChainEventCount(dir, e) != Some(0);
      var doc := if written then ChainEventsDoc(dir, e, now, ChainEventCount(dir, e).value) else ChainList(0, now, 0, []);
      ChainFilesFromStep(EventsDomain, entries, acc.files, EventsFold(dir, entries, now).value.files,
        EventsWrittenBy(dir, now), ChainId(e), doc);
    }
  }

  /** A directory whose name parses to a chain id and whose event count is not zero. */
  ghost function HasEvents(dir: string): Entry -> bool
  {
    e => IsChainDir(e) && ChainEventCount(dir, e) != Some(0)
  }

  /** Every directory whose name parses to a chain id and whose event count is not zero gets its file. */
  lemma {:induction false} EventDirsWritten(dir: string, entries: seq<Entry>, now: string)
    requires EventsFold(dir, entries, now).Success?
    ensures WritesEvery(entries, EventsFold(dir, entries, now).value.files, HasEvents(dir), ChainFileOf(EventsDomain))
  {
    if entries != [] {
      var n := |entries|;
      var init, e := entries[..n - 1], entries[n - 1];
      EventDirsWritten(dir, init, now);
      var acc := EventsFold(dir, init, now).value;
      EventsStepWrites(dir, acc, e, now);
      WritesEveryStep(entries, acc.files, EventsFold(dir, entries, now).value.files, HasEvents(dir), ChainFileOf(EventsDomain));
    }
  }

  /** The event counts of every chain directory, added up. */
  ghost function EventTotal(dir: string, entries: seq<Entry>): nat
  {
    if entries == [] then 0
    else
      var rest := EventTotal(dir, entries[..|entries| - 1]);
      var e := entries[|entries| - 1];
      if IsChainDir(e) && ChainEventCount(dir, e).Some? then rest + ChainEventCount(dir, e).value else rest
  }

  /** The returned total is the sum of every chain's event count. */
  lemma {:induction false} EventsTotalIsSum(dir: string, entries: seq<Entry>, now: string)
    requires EventsFold(dir, entries, now).Success?
    ensures EventsFold(dir, entries, now).value.total == EventTotal(dir, entries)
  {
    if entries != [] {
      var init := entries[..|entries| - 1];
      EventsTotalIsSum(dir, init, now);
      EventsStepWrites(dir, EventsFold(dir, init, now).value, entries[|entries| - 1], now);
    }
  }

  /**
   * When no two directories name the same chain, the returned total is the sum
   * of the counts of the files written.
   */
  lemma {:induction false} EventsTotalWritten(dir: string, entries: seq<Entry>, now: string)
    requires EventsFold(dir, entries, now).Success?
    requires DistinctChainIds(entries)
    ensures EventsFold(dir, entries, now).value.total == SumValues(EventsFold(dir, entries, now).value.files, DocCount)
  {
    if entries != [] {
      var n := |entries|;
      var init, e := entries[..n - 1], entries[n - 1];
      DistinctChainIdsPrefix(entries);
      EventsTotalWritten(dir, init, now);
      var acc := EventsFold(dir, init, now).value;
      EventsStepWrites(dir, acc, e, now);
      if IsChainDir(e) && ChainEventCount(dir, e) != Some(0) {
        var key := ChainFile(EventsDomain, ParseInt(e.name).value);
        NewEventsChainNotWritten(dir, entries, now);
        SumValuesAdd(acc.files, DocCount, key, ChainEventsDoc(dir, e, now, ChainEventCount(dir, e).value));
      }
    }
  }

  /** With distinct chain ids, the last directory's chain has no file yet when its turn comes. */
  lemma NewEventsChainNotWritten(dir: string, entries: seq<Entry>, now: string)
    requires entries != [] && DistinctChainIds(entries) && IsChainDir(entries[|entries| - 1])
    requires EventsFold(dir, entries[..|entries| - 1], now).Success?
    ensures ChainFile(EventsDomain, ParseInt(entries[|entries| - 1].name).value)
      !in EventsFold(dir, entries[..|entries| - 1], now).value.files
  {
    var init := entries[..|entries| - 1];
    EventFilesWritten(dir, init, now);
    NoEventsFileForLaterChain(dir, entries, now, EventsFold(dir, init, now).value.files);
  }

  /** Files written from all but the last entry do not include the last entry's chain. */
  lemma NoEventsFileForLaterChain(dir: string, entries: seq<Entry>, now: string, files: map<OutPath, OutDoc>)
    requires entries != [] && DistinctChainIds(entries) && IsChainDir(entries[|entries| - 1])
    requires ChainFilesFrom(EventsDomain, entries[..|entries| - 1], files, EventsWrittenBy(dir, now))
    ensures ChainFile(EventsDomain, ParseInt(entries[|entries| - 1].name).value) !in files
  {
    var n := |entries|;
    var init := entries[..n - 1];
    var id := ParseInt(entries[n - 1].name).value;
    forall p | p in files
      ensures p.chainId != id
    {
      var i :| 0 <= i < |init| && EventsWrittenBy(dir, now)(init[i], p.chainId, files[p]);
      assert init[i] == entries[i];
      assert ParseInt(entries[i].name) == Some(p.chainId);
    }
  }

  // ----- the count against the files it comes from -----

  lemma HasNullAdd(m: map<string, Json>, k: string, v: Json)
    requires k !in m
    ensures HasNull(m[k := v]) <==> HasNull(m) || v == JNull
  {
    if HasNull(m) {
      var j :| j in m && m[j] == JNull;
      assert m[k := v][j] == JNull;
    }
    if v == JNull {
      assert m[k := v][k] == JNull;
    }
    if HasNull(m[k := v]) && v != JNull {
      var j :| j in m[k := v] && m[k := v][j] == JNull;
      assert j in m && m[j] == JNull;
    }
  }

  /** No two address files share a stem, so none overwrites another. */
  predicate DistinctStems(entries: seq<Entry>)
  {
    forall i, j :: 0 <= i < j < |entries| && IsAddressFile(entries[i]) && IsAddressFile(entries[j]) ==>
      StripJson(entries[i].name) != StripJson(entries[j].name)
  }

  /**
   * The address event count computed file by file: the key counts of every
   * address file that parsed, or None when one of them is null.
   */
  ghost function FileEventCount(entries: seq<Entry>): Option<nat>
  {
    if entries == [] then Some(0)
    else
      var rest := FileEventCount(entries[..|entries| - 1]);
      var e := entries[|entries| - 1];
      if !(IsAddressFile(e) && e.content.Parsed?) then rest
      else if e.content.doc == JNull || rest.None? then None
      else Some(rest.value + Keys(e.content.doc))
  }

  /**
   * When no address file overwrites another, the `reduce` over the address map
   * counts exactly the keys of every address file that parsed, and throws
   * exactly when one of them is null.
   */
  lemma {:induction false} AddressCountPerFile(chainPath: string, entries: seq<Entry>)
    requires DistinctStems(entries)
    ensures AddressEventCount(AddressEventsOf(chainPath, entries).events) == FileEventCount(entries)
  {
    if entries != [] {
      var n := |entries|;
      var init, e := entries[..n - 1], entries[n - 1];
      DistinctStemsPrefix(entries);
      AddressCountPerFile(chainPath, init);
      var prev := AddressEventsOf(chainPath, init).events;
      assert entries[..n - 1] == init;
      if IsAddressFile(e) && e.content.Parsed? {
        var k, d := StripJson(e.name), e.content.doc;
        NewStem(chainPath, entries);
        assert HasNull(prev[k := d]) <==> HasNull(prev) || d == JNull by {
          HasNullAdd(prev, k, d);
        }
        assert SumValues(prev[k := d], Keys) == Keys(d) + SumValues(prev, Keys) by {
          SumValuesAdd(prev, Keys, k, d);
        }
      } else {
        assert AddressEventsOf(chainPath, entries).events == prev;
        assert FileEventCount(entries) == FileEventCount(init);
      }
    }
  }

  lemma DistinctStemsPrefix(entries: seq<Entry>)
    requires entries != [] && DistinctStems(entries)
    ensures DistinctStems(entries[..|entries| - 1])
  {
    var init := entries[..|entries| - 1];
    forall i, j | 0 <= i < j < |init| && IsAddressFile(init[i]) && IsAddressFile(init[j])
      ensures StripJson(init[i].name) != StripJson(init[j].name)
    {
      assert init[i] == entries[i] && init[j] == entries[j];
    }
  }

  /** The last entry, a parsed address file with a stem of its own, adds a new key. */
  lemma NewStem(chainPath: string, entries: seq<Entry>)
    requires entries != [] && DistinctStems(entries)
    requires IsAddressFile(entries[|entries| - 1]) && entries[|entries| - 1].content.Parsed?
    ensures var init, e := entries[..|entries| - 1], entries[|entries| - 1];
      && StripJson(e.name) !in AddressEventsOf(chainPath, init).events
      && AddressEventsOf(chainPath, entries).events
        == AddressEventsOf(chainPath, init).events[StripJson(e.name) := e.content.doc]
  {
    var n := |entries|;
    var init, e := entries[..n - 1], entries[n - 1];
    AddressKeys(chainPath, init);
  }
}
