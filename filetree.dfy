/** The filesystem the tools see, as a map from normalised absolute path
    components to nodes, and the OS error texts the tools pass on.
    Symbolic links are not modelled, as `abspath` never resolves them. */
module FileTree {
  import opened Paths

  datatype Node = File(content: string) | Dir

  type Tree = map<Segments, Node>

  predicate IsDir(t: Tree, k: Segments) {
    k in t && t[k].Dir?
  }

  predicate IsFile(t: Tree, k: Segments) {
    k in t && t[k].File?
  }

  /** A tree: the root "/" is a directory and the parent of every other
      entry is a directory. */
  predicate WellFormed(t: Tree) {
    IsDir(t, []) && forall k :: k in t && k != [] ==> IsDir(t, k[..|k| - 1])
  }

  /** The trees a process can leave behind: well formed ones. */
  type SoundTree = t: Tree | WellFormed(t) witness map[[] := Dir]

  /** Every proper prefix of an existing path is an existing directory. */
  lemma {:induction false} AncestorsAreDirs(t: Tree, k: Segments, i: nat)
    requires WellFormed(t) && k in t && i < |k|
    ensures IsDir(t, k[..i])
    decreases |k|
  {
    var p := k[..|k| - 1];
    if i < |k| - 1 {
      AncestorsAreDirs(t, p, i);
      assert p[..i] == k[..i];
    }
  }

  /** The proper prefixes of `k`: the directories `makedirs(dirname(k))`
      must leave in place. */
  function Ancestors(k: Segments): set<Segments> {
    set i | 0 <= i < |k| :: k[..i]
  }

  /** An exception raised by an OS call, with the path it names. */
  datatype OsError =
    | NoSuchFile(path: string)
    | IsADirectory(path: string)
    | NotADirectory(path: string)
    | FileExists(path: string)
    | OtherError(text: string)

  /** `str(e)` for the exception, as an f-string `{e}` prints it. */
  function Describe(e: OsError): string {
    match e
    case NoSuchFile(p) => "[Errno 2] No such file or directory: '" + p + "'"
    case IsADirectory(p) => "[Errno 21] Is a directory: '" + p + "'"
    case NotADirectory(p) => "[Errno 20] Not a directory: '" + p + "'"
    case FileExists(p) => "[Errno 17] File exists: '" + p + "'"
    case OtherError(text) => text
  }
}
