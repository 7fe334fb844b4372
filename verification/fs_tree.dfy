/**
 * The input directory tree. Reading a file and `JSON.parse` are abstracted into
 * the file's content: either the parsed document or the error either of them raised.
 */
module FsTree {
  import opened Wrappers
  import opened Json

  datatype Content = Parsed(doc: Json) | Malformed(error: string)

  /** A directory entry, children in the order `readdirSync` lists them. */
  datatype Entry =
    | File(name: string, content: Content)
    | Dir(name: string, children: seq<Entry>)

  /** What exists at `<dir>/<name>` (`existsSync` is `Some?`). */
  function Find(entries: seq<Entry>, name: string): Option<Entry>
  {
    if entries == [] then None
    else if entries[0].name == name then Some(entries[0])
    else Find(entries[1..], name)
  }

  predicate EndsWith(s: string, suffix: string)
  {
    |suffix| <= |s| && s[|s| - |suffix|..] == suffix
  }

  /** `path.join(dir, name)` for a plain file name. */
  function Join(dir: string, name: string): string
  {
    dir + "/" + name
  }
}
