/**
 * The filesystem as the store sees it: a map from path string to the kind of
 * node found there, the queries `os.path.exists` and `os.path.isdir`, and
 * `os.makedirs`, whose outcome the operating system (or a concurrent process)
 * decides and the model takes as a parameter.
 */
module OsModel {
  import opened Wrappers
  import opened PosixPath

  /** errno values on Linux. */
  const ENOENT: int := 2
  const EEXIST: int := 17
  const EISDIR: int := 21

  datatype Node = Dir | File

  type Nodes = map<string, Node>

  /** `os.path.exists(p)`; the empty path never exists, as `os.stat('')` fails. */
  predicate PathExists(nodes: Nodes, p: string)
    ensures p == "" ==> !PathExists(nodes, p)
    ensures p != "" ==> (PathExists(nodes, p) <==> p in nodes)
  {
    p != "" && p in nodes
  }

  /** `os.path.isdir(p)`. */
  predicate IsDir(nodes: Nodes, p: string)
    ensures IsDir(nodes, p) ==> PathExists(nodes, p)
    ensures PathExists(nodes, p) ==> (IsDir(nodes, p) <==> nodes[p] == Dir)
  {
    PathExists(nodes, p) && nodes[p] == Dir
  }

  /** What the operating system does when asked to create a missing directory. */
  datatype MakeDirsEffect =
    | Creates                     // the directory and its missing ancestors are made
    | LosesRace(winner: Node)     // another process put `winner` there first: EEXIST
    | Fails(errno: int, created: set<string>)
      // any other failure, after making the ancestors in `created` that were missing

  /** The directories above `p` that `makedirs` would create on the way. */
  function Ancestors(p: string): (r: set<string>)
    ensures forall q :: q in r ==> q < p
  {
    set i | 0 < i < |p| && p[i] == Sep && p[i - 1] != Sep :: p[..i]
  }

  /**
   * `os.makedirs(p)`: the raised errno (None when it returns) and the new
   * filesystem. Creating the empty path fails with ENOENT and an existing path
   * with EEXIST; otherwise `effect` decides. A failure part-way leaves
   * behind the ancestors made before it.
   */
  function MakeDirsResult(nodes: Nodes, p: string, effect: MakeDirsEffect): (r: (Option<int>, Nodes))
    ensures forall q :: q in nodes ==> q in r.1 && r.1[q] == nodes[q]
    ensures forall q :: q in r.1 && q !in nodes ==> q == p || (q in Ancestors(p) && r.1[q] == Dir)
    ensures r.0 == None ==> IsDir(r.1, p)
    ensures PathExists(nodes, p) ==> r == (Some(EEXIST), nodes)
    ensures effect.Fails? && p != "" && p !in nodes ==> r.0 == Some(effect.errno)
    ensures effect.Fails? && p !in nodes ==> p !in r.1
    ensures r.1 != nodes && !effect.Fails? ==> PathExists(r.1, p)
  {
    if p == "" then (Some(ENOENT), nodes)
    else if p in nodes then (Some(EEXIST), nodes)
    else match effect
      case Creates =>
        (None, nodes + map q | q in Ancestors(p) + {p} && q !in nodes :: Dir)
      case LosesRace(winner) => (Some(EEXIST), nodes[p := winner])
      case Fails(e, created) =>
        (Some(e), nodes + map q | q in created && q in Ancestors(p) && q !in nodes :: Dir)
  }

  /**
   * Opening `p` for writing and filling it: the raised errno (None on success)
   * and the new filesystem. Writing to the empty path fails with ENOENT, to a
   * directory with EISDIR; otherwise `fault` decides.
   */
  function WriteResult(nodes: Nodes, p: string, fault: Option<int>): (r: (Option<int>, Nodes))
    ensures r.0 == None ==> r.1 == nodes[p := File] && p != ""
    ensures r.0 != None ==> r.1 == nodes
    ensures IsDir(nodes, p) ==> r.0 == Some(EISDIR)
  {
    if p == "" then (Some(ENOENT), nodes)
    else if IsDir(nodes, p) then (Some(EISDIR), nodes)
    else if fault.Some? then (fault, nodes)
    else (None, nodes[p := File])
  }

  class FileSystem {
    var nodes: Nodes

    constructor(nodes: Nodes)
      ensures this.nodes == nodes
    {
      this.nodes := nodes;
    }

    /** `os.makedirs(p)`, returning the errno it raises, if any. */
    method MakeDirs(p: string, effect: MakeDirsEffect) returns (err: Option<int>)
      modifies this
      ensures (err, nodes) == MakeDirsResult(old(nodes), p, effect)
    {
      var r := MakeDirsResult(nodes, p, effect);
      err, nodes := r.0, r.1;
    }
  }
}
