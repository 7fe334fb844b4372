# explorer-metadata build, modelled in Dafny

This project models the build script `scripts/build.ts` of the explorer-metadata
repository. The script turns a tree of hand-written JSON fragments under `data/`
into consolidated documents under `dist/`, then writes a manifest that records how
many items each builder produced. The model covers these parts:

- the recursive loader `loadJsonFilesFromDir`;
- the per-chain builders `buildAddresses`, `buildTokens` and `buildEvents`;
- the flat builders `buildNetworks`, `buildApps` and `buildOrganizations`;
- the supporter deriver `buildSupporters`;
- the donations pass-through and the manifest of the main block.

How the model is set up:

- **Input.** The file system is a value: a directory is a sequence of entries in
  listing order. A file either parses to a JSON document or carries the parse error
  (`FsTree`).
- **Output.** Everything written goes into a map from output path to document
  (`Output`).
- **Warnings.** Each `console.warn` becomes a `Warning` that is returned.
- **Uncaught exceptions.** Each one becomes a `Fatal` failure that ends the run.
  Examples are `readdirSync` on a file, `JSON.parse` outside a `try`, and a property
  read on `null`.
- **Parameters.** The clock (`new Date().toISOString()`) and the `package.json`
  version are passed in.

Modules:

- `Json`, `FsTree`, `Wrappers`: the values.
- `JsParseInt`: `parseInt(name, 10)` and `String(n)`.
- `Loader`: `loadJsonFilesFromDir`.
- `Sorting`: a stable sort with its specification, standing for `Array.prototype.sort`.
- `ChainLists`: addresses and tokens.
- `Events`: events.
- `FlatLists`: networks, apps and organizations.
- `Supporters`: supporters.
- `Pipeline`: donations, the builders in order, and the manifest.

Each builder with a loop has two parts:

- a method with the source's loops, proved equal to a specification function;
- lemmas about that function, which state what the builder writes and counts.

`buildNetworks` and the donations step have no loop, so each is a function only
(`FlatLists.BuildNetworks`, `Pipeline.Donations`), with lemmas about it.

The sorts are specified by `StableSortOf`: the result is sorted by key, and the
elements of each key keep their input order. `StableSortIsUnique` shows that only
one sequence has this property. So every statement made through `StableSortOf`
pins down the sorted list exactly.

Behaviour of the code worth knowing, which the model follows:

- **Chain ids.** A chain directory is kept when `parseInt(name, 10)` reads a number.
  So "-1", "7abc" and " 7" are all chains, not just non-negative integers.
  "1" and "01" name the same chain. The second directory's file replaces the
  first, yet both add to the returned total. So when two directory names parse
  to the same id, the manifest's count exceeds what the written files hold.
  `ChainLists.SameChainTwiceOverCounts` and
  `ChainLists.DuplicateChainIdsOverCount` prove this. The rule does hold when the
  chain ids are distinct (`ChainLists.ChainTotalWritten`,
  `Events.EventsTotalWritten`).
- **Address keys.** The address key of an event file is its name with the *first*
  `.json` removed (`name.replace(".json", "")`), not its stem: `a.json.json` is
  keyed `a.json`. Two files with the same key overwrite each other in listing
  order (`Events.AddressKeysLastWins`).
- **Subscriptions.** A supporter is derived when `subscription` is *truthy*, not
  merely non-null.
- **`common.json`.**
  - A `common.json` that parses to `null` aborts the run, because `Object.keys`
    throws on `null`.
  - A `common.json` that fails to parse counts as `{}`.
  - A `common.json` that is a directory is logged and counts as `{}`.
- **`networks` field.** A truthy `networks` that is not an array aborts
  `buildNetworks`, because it has no `sort` method. A string there is harmless in
  `buildSupporters`, whose `for … of` iterates its characters, none of which is
  subscribed.

## Model

| member | source | states |
|---|---|---|
| JsParseInt.ParseIntNeedsWrittenForm | scripts/build.ts:88 | the converse of `ParseIntOfWrittenForm`: a name that is not NaN is white space, an optional `+` or `-`, at least one digit, then anything not starting with a digit, and it reads as those digits' value, negated after `-`; so a directory is skipped as NaN exactly when its name has no such form |
| JsParseInt.ParseIntOfWrittenForm | scripts/build.ts:88 | a name written as white space, an optional `+` or `-`, digits, then anything not starting with a digit, parses to the digits' value, negated after `-` (" -12px" is -12) |
| JsParseInt.ParseIntReadsLeadingDigits | scripts/build.ts:88 | `parseInt` of a name made of digits followed by a non-digit reads just the digits (leading zeros included) |
| JsParseInt.ParseIntOfIntToString | scripts/build.ts:374 | `parseInt(String(n))` gives back `n` for every integer, negative ones included: a network supporter's `id` reads back as its chain id |
| JsParseInt.IntToStringInjective | scripts/build.ts:110-113 | distinct chain ids are written as distinct file names |
| JsParseInt.LeadingDigits | scripts/build.ts:88 | the prefix `parseInt` reads is all digits, and the character after it is not a digit |
| Loader.LoadChildren | scripts/build.ts:55-69 | the recursive loop over a directory's entries returns what `LoadEntries` defines: documents and warnings in depth-first listing order |
| Loader.LoadJsonFilesFromDir | scripts/build.ts:48-72 | a missing directory gives no documents; a file in its place aborts (`readdirSync` throws); otherwise the walk of its entries |
| Loader.LoadEntriesFindsAllJsonFiles | scripts/build.ts:55-69 | the documents returned are exactly those of the `.json` files at any depth that parsed, in depth-first order; other files are ignored |
| Loader.LoadEntriesWarnsOfEveryFailure | scripts/build.ts:62-67 | one warning, with the file's path and error, per `.json` file that failed to parse, in the same order; a failure drops only that file |
| Loader.LoadedAccountsForEveryJsonFile | scripts/build.ts:55-69 | every `.json` file gives exactly one document or one warning, and a document is returned exactly when some file parsed to it |
| Sorting.KeyLeTotalOrder | scripts/build.ts:100 | the comparison used for every sort (`localeCompare` as code-point order, `a - b` on numbers) is a total order |
| Sorting.SortByIsStableSort | scripts/build.ts:97-101 | the sort returns a stable sort of its input: sorted by key, with equal keys in input order |
| Sorting.StableSortIsUnique | scripts/build.ts:97-101 | two stable sorts of one sequence are equal, so the stable-sort property determines the output |
| Sorting.SortBy | scripts/build.ts:97-101 | the sorted list is a permutation of the input |
| Sorting.InsertSorted | scripts/build.ts:97-101 | inserting into a sorted list keeps it sorted |
| Sorting.InsertWithKey | scripts/build.ts:97-101 | inserting an element puts it before every element of equal key, which keeps the order within each key |
| ChainLists.AddressKey | scripts/build.ts:98-99 | an address is sorted by `label`, falling back to `address` when `label` is falsy, then to `""` |
| ChainLists.NameKey | scripts/build.ts:221-222 | tokens, apps and organizations are sorted by `name`, a falsy name counting as `""` |
| ChainLists.BuildChain | scripts/build.ts:86-116 | one iteration over a chain directory: a non-directory or an unparsable name is skipped; an empty chain writes nothing but keeps the warnings; null documents make the sort throw; otherwise it writes `<domain>/<id>.json` and adds the document count to the total |
| ChainLists.BuildChainLists | scripts/build.ts:74-120 | the whole loop: a missing domain directory counts 0; the loop stops at the first failure, and the fold gives exactly that failure |
| ChainLists.BuildAddresses | scripts/build.ts:74-120 | `buildAddresses` is the chain-list builder for `data/addresses`, sorted by `AddressKey` |
| ChainLists.BuildTokens | scripts/build.ts:197-243 | `buildTokens` is the chain-list builder for `data/tokens`, sorted by `NameKey` |
| ChainLists.FoldFailurePersists | scripts/build.ts:85-117 | once an iteration fails, the loop's result is that failure |
| ChainLists.ChainFilesWritten | scripts/build.ts:97-113 | every file written is `<domain>/<id>.json` for a directory whose name parses to `id` and that holds documents; it lists them stably sorted by the display key, and `count` is their number |
| ChainLists.ChainDirsWritten | scripts/build.ts:85-94 | every directory whose name parses and that holds at least one document gets its file |
| ChainLists.ChainTotalIsSum | scripts/build.ts:115 | the returned total is the sum of the documents loaded from every chain directory |
| ChainLists.ChainTotalWritten | scripts/build.ts:115-119 | with distinct chain ids, the returned total equals the sum of the `count`s of the files written |
| ChainLists.NewChainNotWritten | scripts/build.ts:110-113 | with distinct chain ids, a chain's file does not exist before its directory's turn |
| ChainLists.SameChainTwiceOverCounts | scripts/build.ts:88-115 | two directories whose names parse to the same id, one document each: the total is 2, but the files written hold 1 |
| ChainLists.DuplicateChainIdsOverCount | scripts/build.ts:88-115 | the concrete case: chain directories "1" and "01" under `data/addresses` |
| ChainLists.OneAndZeroOneNameChainOne | scripts/build.ts:88 | `parseInt` reads both "1" and "01" as 1 |
| Events.StripJsonLength | scripts/build.ts:159 | `replace(".json", "")` removes exactly five characters or none, and always removes them from a name ending in `.json` |
| Events.StripJsonFirst | scripts/build.ts:159 | `replace(".json", "")` removes the first occurrence and keeps everything around it |
| Events.StripJsonAbsent | scripts/build.ts:159 | a name without `.json` is left unchanged |
| Events.StripJsonOfStem | scripts/build.ts:159 | a file `<stem>.json` whose stem has no dot is keyed by its stem |
| Events.OnlyCommonJsonIsKeyedCommon | scripts/build.ts:156-159 | the only `.json` name whose key is `common` is `common.json` |
| Events.CommonIsNeverAnAddress | scripts/build.ts:155-162 | no address key is `common`, since `common.json` is skipped |
| Events.LoadCommonReads | scripts/build.ts:142-151 | `commonEvents` falls back to `{}` unless `common.json` is a file that parsed, and a `common.json` that is there but cannot be read gives exactly one warning, with its path |
| Events.LoadAddressEvents | scripts/build.ts:154-166 | the inner loop: each parsed `.json` file other than `common.json` is stored under its key, later files overwriting earlier ones; each one that fails becomes a warning |
| Events.AddressKeys | scripts/build.ts:155-162 | a key is in the address map exactly when some address file with that key parsed |
| Events.AddressKeysLastWins | scripts/build.ts:159-162 | each key holds the document of the last parsed file with that key |
| Events.CountAddressEvents | scripts/build.ts:169-172 | the `reduce` over the address maps gives the sum of their key counts, or throws when one of them is null |
| Events.AddressCountPerFile | scripts/build.ts:168-173 | with distinct keys, the address count is the sum of the key counts of every parsed address file |
| Events.BuildChainEvents | scripts/build.ts:134-191 | one chain directory: skips as the chain lists do; counts `Object.keys(common)` plus the address count; a null `common.json` or address file aborts; a zero count writes nothing |
| Events.BuildEvents | scripts/build.ts:122-195 | the whole loop over `data/events`, a missing directory counting 0 |
| Events.EventsStepWrites | scripts/build.ts:168-190 | one iteration adds the chain's event count to the total and writes its file exactly when the count is not zero |
| Events.EventFilesWritten | scripts/build.ts:177-188 | every file written is `events/<id>.json` for a directory whose name parses to `id`; it holds that directory's `common` and address maps and its non-zero event count |
| Events.EventDirsWritten | scripts/build.ts:175-188 | every directory whose name parses and whose event count is not zero gets its file |
| Events.EventsTotalIsSum | scripts/build.ts:190 | the returned total is the sum of every chain's event count |
| Events.EventsTotalWritten | scripts/build.ts:190-194 | with distinct chain ids, the returned total equals the sum of the `count`s of the files written |
| FlatLists.NetworkKey | scripts/build.ts:255-257 | networks are compared by numeric `chainId`, a falsy `chainId` counting as 0 |
| FlatLists.BuildNetworks | scripts/build.ts:245-273 | `buildNetworks` never warns and writes at most `networks.json`; it writes that file whenever `data/networks.json` exists and the build does not abort, and counts 0 when it writes nothing |
| FlatLists.NetworksWritten | scripts/build.ts:245-273 | an absent file writes nothing and counts 0; otherwise `networks.json` lists `networks` stably sorted by chain id, a falsy `networks` listing nothing, and the count is the list's length |
| FlatLists.NetworksFailures | scripts/build.ts:248-258 | the build aborts exactly when the file exists and is a directory, does not parse, is null, has a truthy non-array `networks`, or has a null among two or more networks |
| FlatLists.NetworksNeverFail | scripts/build.ts:250-272 | an object with an array of non-null networks is always written, counting them all |
| FlatLists.BuildItemList | scripts/build.ts:275-299 | apps and organizations: load, sort by name and write one file |
| FlatLists.BuildApps | scripts/build.ts:275-299 | `buildApps` is the item-list builder for `data/apps` |
| FlatLists.BuildOrganizations | scripts/build.ts:301-325 | `buildOrganizations` is the item-list builder for `data/orgs` |
| FlatLists.ItemListWritten | scripts/build.ts:277-298 | the file is written even when the directory is missing; it lists every loaded document stably sorted by name, and the count is their number |
| Supporters.SupporterOf | scripts/build.ts:352-418 | a record's type is fixed by its domain; its tier and expiry are the subscription's, and `startedAt` equals `expiresAt`; a token's id is its `address`, its name is "`${name} (${symbol})`" and it keeps `chainId`; a network's id is `String(chainId)`, with its `chainId` and `name`; an app's or organization's id and name are its own, with no chain id |
| Supporters.TokenSupporterExample | scripts/build.ts:352-359 | a subscribed token with address "0x1", chain id 1, name "Foo", symbol "FOO" and tier 2 gives the record with id "0x1", name "Foo (FOO)", chain id 1, tier 2 and its expiry as both dates |
| Supporters.CollectSupporters | scripts/build.ts:349-362 | one domain's loop pushes, in order, one record per document with a truthy `subscription`; a null document aborts |
| Supporters.NetworkListVisits | scripts/build.ts:369-370 | the scan visits the elements of a `networks` array in order and nothing for a falsy or string `networks`; it throws on a null document or any other truthy `networks` |
| Supporters.LoadNetworksReads | scripts/build.ts:366-370 | an absent `data/networks.json` gives no networks; a directory or an unparsable file in its place aborts; a parsed file is scanned as `NetworkList` of its document, so its `networks` array is what gets visited, in order |
| Supporters.NetworksScanAgrees | scripts/build.ts:245-258 | when `buildNetworks` does not abort, the supporter scan of the same file does not either, and `networks.json` is the stable sort by chain id of exactly the networks the scan visits, in the order it visits them |
| Supporters.SupporterKey | scripts/build.ts:425 | supporters are compared by their name: a string name as itself, a missing one as "undefined" |
| Supporters.ExtendStage | scripts/build.ts:345-363 | one domain's scan after the earlier ones; a loading failure aborts |
| Supporters.BuildSupporters | scripts/build.ts:342-440 | tokens (re-loaded from the whole `data/tokens` tree), then networks, apps and organizations, then the sort by name and the file |
| Supporters.DeriveMembers | scripts/build.ts:349-362 | a domain's loop pushes as many records as it has subscribed documents, and a record exactly when it is derived from one of them |
| Supporters.CollectedAll | scripts/build.ts:345-422 | a completed scan holds the four domains' records in order: tokens, networks, apps, organizations |
| Supporters.SupportersWritten | scripts/build.ts:424-439 | `supporters.json` lists the collected records stably sorted by name, and the count is the number of subscribed documents over the four domains |
| Supporters.SupporterRecords | scripts/build.ts:342-431 | the list holds a record of a given type exactly when it is derived from a subscribed document of that domain, and every record has `startedAt == expiresAt` |
| Supporters.NetworkIdRoundTrip | scripts/build.ts:374 | a network supporter's `id` is `String(chainId)`, which `parseInt` reads back as the chain id |
| Pipeline.DonationCount | scripts/build.ts:482 | the donations count (the `length` of `content.donations`, or 0): the length of an array or a string, 0 when `donations` is missing or null |
| Pipeline.Donations | scripts/build.ts:477-488 | the donations step aborts exactly when `data/donations.json` is a directory, does not parse or is null; it never warns, and when the file exists it copies the document unchanged to `donations.json` and counts `DonationCount` of it |
| Pipeline.DonationsWritten | scripts/build.ts:477-488 | an absent file writes nothing and counts 0; an object is copied unchanged, and the count is the length of its `donations` array, 0 when that is missing or not an array or string |
| Pipeline.Step | scripts/build.ts:468-474 | running one builder adds its files, warnings and count to the run, or ends the run with its failure |
| Pipeline.Build | scripts/build.ts:468-515 | the main block: the eight builders in source order, then the manifest |
| Pipeline.RunAllCompletes | scripts/build.ts:468-488 | a run that completes ran every builder successfully and recorded each builder's count in order |
| Pipeline.ManifestRecordsCounts | scripts/build.ts:495-510 | when the run completes, `manifest.json` records each count returned by the corresponding builder |
| Pipeline.BuildersWriteDisjointFiles | scripts/build.ts:468-488 | no two builders write the same output path |
| Output.PathInjective | scripts/build.ts:110-113 | two output entries with the same file name are the same entry, because `String(id)` parses back to `id` |
| Pipeline.BuildersWriteDistinctFileNames | scripts/build.ts:468-488 | no two builders write files with the same name |
| Pipeline.RunAllKeepsFiles | scripts/build.ts:468-488 | with disjoint builders, every file a builder writes survives unchanged, and every output file comes from some builder |
| Pipeline.OutputHoldsEveryBuilderFile | scripts/build.ts:468-515 | the finished output holds every builder's files unchanged; every file except the manifest comes from some builder |

## Left out

- File-system I/O is not modelled as effects. The input tree is a value and the
  output is a map, so `ensureDir`, `rmSync`, `mkdirSync` and `writeFileSync` are
  not modelled, nor is the cleaning of `dist/`.
- `copyDirectory`, `copyProfiles` and `copyAssets` are left out: they copy bytes.
  They can also end the run: when `profiles` or `assets` exists but is a file,
  `readdirSync` (scripts/build.ts:34) throws after the donations step and before
  `manifest.json` is written. `Pipeline.Build` still writes the manifest in that
  case; the model does not cover this failure.
- `JSON.parse` and `JSON.stringify` are not modelled: a file carries its parse
  result, and output documents are values without a formatting.
- Warnings logged before an abort are not part of a failed run: the program prints
  each `console.warn` as it goes, but a `Failure` carries only its error.
- `console.log` is left out. `console.warn` is modelled as a returned list of
  warnings.
- The clock and `package.json` are parameters. `updatedAt`/`buildTime` are
  parameters, and every call to the clock within one run gives the same value.
  The version is a parameter, so reading `package.json` (which could throw) is
  not modelled.
- JSON numbers are integers. Fractions and floating-point comparison in the
  network sort are not modelled.
- JsParseInt.ParseInt: returns the exact integer. JavaScript's `parseInt` gives a
  double, so a run of digits above 2^53 is rounded ("9007199254740993" reads as
  9007199254740992); the model does not round.
- JsParseInt.ParseIntOfWrittenForm: holds of the model's exact integers. In the
  program the value read is the digits' value, negated after `-`, only while the
  digits' value is at most 2^53 (" -9007199254740993" reads as -9007199254740992).
- JsParseInt.ParseIntNeedsWrittenForm: the written form it gives is exact, but
  the value it states is the exact integer; the program rounds it above 2^53 as
  for `ParseIntOfWrittenForm`.
- JsParseInt.ParseIntReadsLeadingDigits: holds of the model's exact integers. In
  the program the value read is `DigitsValue(d)` only while it is at most 2^53.
- JsParseInt.ParseIntOfIntToString: holds of the model's `String(n)` on unbounded
  integers. In the program `String(n)` writes |n| >= 1e21 in exponent form
  ("1e+21", which `parseInt` reads as 1), and integers above 2^53 are rounded.
- Supporters.NetworkIdRoundTrip: for the same reason, a `chainId` with
  |chainId| >= 1e21 or above 2^53 does not read back from the supporter's `id` in
  the program.
- ChainLists.ChainTotalWritten: its distinct chain ids are exact integers. In the
  program two directory names whose digits exceed 2^53 can round to one id, and
  the over-count of `ChainLists.SameChainTwiceOverCounts` then applies to them.
- ChainLists.NewChainNotWritten: as above, two names whose digits exceed 2^53 can
  name one chain in the program while their exact integers differ.
- Events.EventsTotalWritten: as above, for the events' chain directories.
- `localeCompare` is code-point order on strings. Locale collation is not modelled.
- JavaScript's object key order, prototype properties and the UTF-16 length of
  strings are not modelled. A `donations` string counts its characters.
- Chain directory listing order is the sequence order; the operating system's
  ordering is not modelled.
- Sort exceptions are modelled only for null documents. The sort throws when a
  null document is among two or more documents, because every element is read
  by some comparison. A comparison whose receiver is not a string is not
  modelled as throwing: `(5).localeCompare` throws, and a supporter without a
  `name` throws as `undefined.localeCompare`. Which element acts as receiver
  depends on the engine's sort algorithm.
- ChainLists.AddressKey: a truthy non-string `label` or `address` is compared
  through `String(v)` instead of throwing when it is the receiver (see above).
- ChainLists.NameKey: a truthy non-string `name` is compared through `String(v)`
  instead of throwing when it is the receiver.
- Supporters.SupportersWritten: supporters are compared by `String(name)`, so a
  missing name is never a receiver that throws.
- FlatLists.NetworkKey: a truthy `chainId` that is not a number compares as 0.
  JavaScript would subtract it after numeric conversion.
- Supporters.SupporterKey: a missing or non-string `name` is compared as
  `String(name)`; in the program a missing name on the receiver side throws.
- Pipeline.DonationCount: a `donations` object with a numeric `length` property
  counts 0, not that `length`; a number or boolean counts 0, as in the program.
- Pipeline.DonationsWritten: the count of an object whose `donations` is an object
  with a numeric `length` property is 0, not that `length`.
