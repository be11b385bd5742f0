/** Paths and the abstract filesystem the resolvers consult. */
module Paths {
  import opened Options

  type Path = string

  /** A path that starts at the filesystem root. */
  predicate IsAbsolute(p: Path) {
    |p| > 0 && p[0] == '/'
  }

  /** `File.join(dir, name)`. */
  function Join(dir: Path, name: string): Path {
    dir + "/" + name
  }

  /** A path given in the options, taken relative to the project root unless
      it is already absolute. */
  function Expand(root: Path, p: string): (r: Path)
    ensures IsAbsolute(root) || IsAbsolute(p) ==> IsAbsolute(r)
    ensures IsAbsolute(p) ==> r == p
  {
    if IsAbsolute(p) then p else Join(root, p)
  }

  /** Resolved paths keyed by role (`vectors`, `fonts`, …), shared by the
      input and output resolvers. */
  type PathSet = map<string, Path>

  /** What the structured-data (YAML) parser makes of a file's content. */
  datatype Document = Parsed(options: OptionSet) | Unparseable(reason: string)

  /** A directory lists the names of its entries; a file has content. */
  datatype Node = Dir(entries: set<string>) | File(content: Document)

  /** The filesystem at the moment of resolution: a path that is not a key
      does not exist. */
  type FileSystem = map<Path, Node>

  predicate IsDir(fs: FileSystem, p: Path) {
    p in fs && fs[p].Dir?
  }

  predicate IsFile(fs: FileSystem, p: Path) {
    p in fs && fs[p].File?
  }
}
