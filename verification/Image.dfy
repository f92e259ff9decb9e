/** Flattening an image (src/oci/image.rs): a stream of entries, applied in archive order to a directory tree, whiteouts
    deleting what came before them, and then a walk that gives every file and directory the same metadata.

    The destination is a map from paths, relative and never empty, to nodes; the destination directory itself is
    the empty path and always there. */
module Image {
  import opened Base

  // ----- paths

  datatype Component = Normal(name: string) | CurDir | ParentDir | RootDir | Prefix

  type Path = seq<string>

  predicate Harmless(c: Component) { c.Normal? || c.CurDir? }

  /** The names of a path, one below the other. */
  function Names(components: seq<Component>): Path {
    if components == [] then []
    else
      var rest := Names(components[..|components| - 1]);
      var last := components[|components| - 1];
      if last.Normal? then rest + [last.name] else rest
  }

  /** Where a path leads from the destination directory; None once it has left it. */
  function Walk(components: seq<Component>): Option<Path> {
    if components == [] then Some([])
    else
      match Walk(components[..|components| - 1])
      case None => None
      case Some(here) =>
        match components[|components| - 1]
        case Normal(name) => Some(here + [name])
        case CurDir => Some(here)
        case ParentDir => if here == [] then None else Some(here[..|here| - 1])
        case RootDir => None
        case Prefix => None
  }

  /** `sanitize_path` accepts exactly the paths made of names and `.`, with at least one name, and returns the
      names. */
  method SanitizePath(components: seq<Component>) returns (path: Option<Path>)
    ensures path.Some? <==> Names(components) != [] && forall i :: 0 <= i < |components| ==> Harmless(components[i])
    ensures path.Some? ==> path.value == Names(components)
  {
    if components == [] || components[0].RootDir? {
      return None;
    }
    var out: Path := [];
    for i := 0 to |components|
      invariant out == Names(components[..i])
      invariant forall j :: 0 <= j < i ==> Harmless(components[j])
    {
      assert components[..i + 1][..i] == components[..i];
      match components[i] {
        case Normal(name) => out := out + [name];
        case CurDir =>
        case ParentDir => return None;
        case RootDir => return None;
        case Prefix => return None;
      }
    }
    assert components[..|components|] == components;
    path := if out == [] then None else Some(out);
  }

  function Sanitized(components: seq<Component>): Option<Path> {
    if Names(components) != [] && forall i :: 0 <= i < |components| ==> Harmless(components[i]) then Some(Names(components)) else None
  }

  /** An accepted path never leaves the destination and leads to the returned path. */
  lemma {:induction false} SanitizedStaysInside(components: seq<Component>)
    requires forall i :: 0 <= i < |components| ==> Harmless(components[i])
    ensures Walk(components) == Some(Names(components))
  {
    if components != [] {
      SanitizedStaysInside(components[..|components| - 1]);
    }
  }

  // ----- nodes and trees

  datatype Meta = Meta(mode: nat, mtime: int, uid: nat, gid: nat)
  datatype Node = File(content: seq<nat>, meta: Meta) | Dir(meta: Meta)
  type Tree = map<Path, Node>

  /** Directories created on the way to a file. */
  const IMPLICIT := Dir(Meta(0x1ed, 0, 0, 0))

  function Parent(p: Path): Path
    requires p != []
  {
    p[..|p| - 1]
  }

  /** Everything hangs below a directory, up to the destination itself. */
  ghost predicate Closed(tree: Tree) {
    [] !in tree && forall p :: p in tree && Parent(p) != [] ==> Parent(p) in tree && tree[Parent(p)].Dir?
  }

  // ----- entries

  /** What the archive yields: an entry that cannot be read, one whose path cannot be decoded, or a file or
      directory. */
  datatype Entry = Unreadable | BadPath | Entry(path: seq<Component>, node: Node)

  /** `Dots` is the whiteout of the name "." or "..". */
  datatype Effect = Nothing | Opaque(dir: Path) | Remove(victim: Path) | Create(path: Path, node: Node) | Dots

  const WHITEOUT := ".wh."
  const OPAQUE := ".wh..opq"

  /** What an entry of a sanitized path does. A whiteout of the empty name is one of its directory. */
  function PathEffect(path: Path, node: Node): Effect
    requires path != []
  {
    var name := path[|path| - 1];
    if WHITEOUT <= name then
      var deleted := name[|WHITEOUT|..];
      if deleted == OPAQUE || deleted == "" then Opaque(Parent(path))
      else if deleted == "." || deleted == ".." then Dots
      else Remove(Parent(path) + [deleted])
    else Create(path, node)
  }

  function EffectOf(entry: Entry): Effect {
    match entry
    case Unreadable => Nothing
    case BadPath => Nothing
    case Entry(components, node) =>
      match Sanitized(components)
      case None => Nothing
      case Some(path) => PathEffect(path, node)
  }

  function Effects(entries: seq<Entry>): (r: seq<Effect>)
    ensures |r| == |entries|
  {
    seq(|entries|, i requires 0 <= i < |entries| => EffectOf(entries[i]))
  }

  // ----- one effect

  /** `remove_dir_all` and `remove_file`: `v` and everything below it. */
  function Prune(tree: Tree, v: Path): Tree { map p | p in tree && !(v <= p) :: tree[p] }

  /** What a whiteout deletes: an opaque marker its directory — the directory itself, not just its contents —
      unless that is a file. */
  function Victim(tree: Tree, e: Effect): Option<Path> {
    match e
    case Opaque(dir) => if dir in tree && tree[dir].File? then None else Some(dir)
    case Remove(v) => Some(v)
    case _ => None
  }

  /** `p` is a proper part of `q`, and not the destination. */
  predicate Above(p: Path, q: Path) { p != [] && p < q }

  function Uppers(q: Path): set<Path> { set k | 0 < k < |q| :: q[..k] }

  /** A file cannot become a directory, nor a directory a file. */
  predicate Fits(tree: Tree, q: Path, node: Node) {
    (q in tree ==> tree[q].File? == node.File?) && forall d :: d in Uppers(q) ==> !(d in tree && tree[d].File?)
  }

  function Grown(tree: Tree, q: Path, node: Node): Tree {
    (map p | p in tree.Keys + Uppers(q) :: if p in tree then tree[p] else IMPLICIT)[q := node]
  }

  /** How far flattening has come: the tree so far; the destination itself removed; an entry that failed to unpack; the
      walk failed; or an effect of which nothing is said. */
  datatype Result = Ok(tree: Tree) | Gone(tree: Tree) | TarError(tree: Tree) | IoError(tree: Tree) | Unmodelled(tree: Tree) {
    predicate GoesOn() { Ok? || Gone? }
  }

  function Apply(tree: Tree, e: Effect): Result {
    match e
    case Create(path, node) => if Fits(tree, path, node) then Ok(Grown(tree, path, node)) else TarError(tree)
    case Dots => Unmodelled(tree)
    case _ =>
      match Victim(tree, e)
      case None => Ok(tree)
      case Some(v) => if v == [] then Gone(map[]) else Ok(Prune(tree, v))
  }

  /** With the destination gone nothing is left to remove, and nothing can be unpacked. */
  function Next(r: Result, e: Effect): Result {
    match r
    case Ok(tree) => Apply(tree, e)
    case Gone(tree) => if e.Create? then TarError(tree) else r
    case _ => r
  }

  /** The stream, in archive order, up to the first failure. */
  function Unpacked(tree: Tree, effects: seq<Effect>): Result {
    if effects == [] then Ok(tree) else Next(Unpacked(tree, effects[..|effects| - 1]), effects[|effects| - 1])
  }

  lemma UppersAre(q: Path, p: Path)
    ensures p in Uppers(q) <==> Above(p, q)
  {
    if Above(p, q) {
      assert p == q[..|p|];
    }
  }

  lemma {:induction false} ParentsLive(tree: Tree, p: Path, d: Path)
    requires Closed(tree) && p in tree && Above(d, p)
    ensures d in tree && tree[d].Dir?
    decreases |p|
  {
    if d != Parent(p) {
      assert d < Parent(p) by {
        assert d == p[..|d|];
        assert Parent(p)[..|d|] == d;
      }
      ParentsLive(tree, Parent(p), d);
    }
  }

  lemma ApplyCloses(tree: Tree, e: Effect)
    requires Closed(tree) && (e.Create? ==> e.path != [])
    ensures Closed(Apply(tree, e).tree)
    ensures Closed(map[])
  {
    var t := Apply(tree, e).tree;
    if e.Create? {
      if Fits(tree, e.path, e.node) {
        GrownCloses(tree, e.path, e.node);
      }
    } else if Victim(tree, e).Some? {
      PruneCloses(tree, Victim(tree, e).value);
    }
  }

  lemma PruneCloses(tree: Tree, v: Path)
    requires Closed(tree)
    ensures Closed(Prune(tree, v))
  {
    var t := Prune(tree, v);
    forall p | p in t && Parent(p) != [] ensures Parent(p) in t && t[Parent(p)].Dir? {
      assert Parent(p) < p;
    }
  }

  lemma GrownCloses(tree: Tree, q: Path, node: Node)
    requires Closed(tree) && q != [] && Fits(tree, q, node)
    ensures Closed(Grown(tree, q, node))
  {
    var t := Grown(tree, q, node);
    UppersAre(q, []);
    forall p | p in t && Parent(p) != [] ensures Parent(p) in t && t[Parent(p)].Dir? {
      var d := Parent(p);
      UppersAre(q, p);
      UppersAre(q, d);
      if d == q {
        assert p in tree by { assert !Above(p, q); }
      } else if p in tree {
      } else {
        assert d < q by { assert d == q[..|d|] by { assert p <= q; } }
      }
    }
  }

  /** The tree stays well formed whatever the archive holds. */
  lemma {:induction false} UnpackedCloses(tree: Tree, entries: seq<Entry>)
    requires Closed(tree)
    ensures Closed(Unpacked(tree, Effects(entries)).tree)
  {
    if entries != [] {
      var k := |entries| - 1;
      UnpackedCloses(tree, entries[..k]);
      assert Effects(entries)[..k] == Effects(entries[..k]);
      var r := Unpacked(tree, Effects(entries[..k]));
      assert Effects(entries)[k] == EffectOf(entries[k]);
      ApplyCloses(r.tree, EffectOf(entries[k]));
      hide Apply, Closed, Effects;
    }
  }

  // ----- normalising

  const PLAIN := 0x1a4  // rw-r--r--
  const EXECUTABLE := 0x1ed  // rwxr-xr-x

  /** `mode & 0o111 != 0`. */
  predicate Executable(mode: nat) { mode % 2 == 1 || mode / 8 % 2 == 1 || mode / 64 % 2 == 1 }

  function NormalNode(n: Node): Node {
    match n
    case Dir(_) => Dir(Meta(EXECUTABLE, 0, 0, 0))
    case File(content, meta) => File(content, Meta(if Executable(meta.mode) then EXECUTABLE else PLAIN, 0, 0, 0))
  }

  function NormalTree(tree: Tree): Tree { map p | p in tree :: NormalNode(tree[p]) }

  /** The entries of a directory, each once, in any order. */
  ghost predicate Lists(names: seq<Path>, tree: Tree, dir: Path) {
    NoDup(names) && forall p :: p in names <==> p in tree && p != [] && Parent(p) == dir
  }

  /** The tree with the nodes at `done` normalised. */
  ghost predicate NormalAt(tree: Tree, original: Tree, done: seq<Path>) {
    && tree.Keys == original.Keys
    && forall p :: p in original ==> tree[p] == if p in done then NormalNode(original[p]) else original[p]
  }

  /** The destination, changed in place. Nothing is known of the order in which a directory is listed. */
  class Disk {
    var tree: Tree
    var gone: bool

    constructor (tree: Tree)
      ensures this.tree == tree && !gone
    {
      this.tree := tree;
      gone := false;
    }

    /** Where flattening has come to while no entry has failed. */
    ghost function Now(): Result
      reads this
    {
      if gone then Gone(tree) else Ok(tree)
    }

    ghost predicate Valid()
      reads this
    {
      Closed(tree) && (gone ==> tree == map[])
    }

    method ReadDir(dir: Path) returns (names: seq<Path>)
      ensures Lists(names, tree, dir)
    {
      var rest := set p | p in tree && p != [] && Parent(p) == dir;
      names := [];
      while rest != {}
        invariant NoDup(names)
        invariant forall p :: p in names || p in rest <==> p in tree && p != [] && Parent(p) == dir
        invariant forall p :: p in names ==> p !in rest
        decreases |rest|
      {
        var p :| p in rest;
        names := names + [p];
        rest := rest - {p};
      }
    }

    method NormalizeMeta(p: Path, isDir: bool)
      requires p in tree && isDir == tree[p].Dir?
      modifies `tree
      ensures tree == old(tree)[p := NormalNode(old(tree)[p])]
    {
      var node := tree[p];
      var meta := Meta(if isDir || Executable(node.meta.mode) then EXECUTABLE else PLAIN, 0, 0, 0);
      tree := tree[p := node.(meta := meta)];
    }

    /** `unpack_in`, for files and directories: it needs the destination. */
    method Unpack(path: Path, node: Node) returns (ok: bool)
      modifies `tree
      ensures ok == (!gone && Fits(old(tree), path, node))
      ensures tree == if ok then Grown(old(tree), path, node) else old(tree)
    {
      ok := !gone && Fits(tree, path, node);
      if ok {
        tree := Grown(tree, path, node);
      }
    }

    /** `remove_dir_all`: nothing happens to a file, and the destination itself can be removed. */
    method RemoveDirAll(v: Path)
      modifies this
      ensures tree == if v in old(tree) && old(tree)[v].File? then old(tree) else Prune(old(tree), v)
      ensures gone == (old(gone) || (v == [] && !([] in old(tree) && old(tree)[[]].File?)))
    {
      if v in tree && tree[v].File? {
        return;
      }
      tree := Prune(tree, v);
      gone := gone || v == [];
    }

    /** `remove_file`: nothing happens to a directory. */
    method RemoveFile(v: Path)
      modifies `tree
      ensures tree == if v in old(tree) && old(tree)[v].File? then old(tree) - {v} else old(tree)
    {
      if v in tree && tree[v].File? {
        tree := tree - {v};
      }
    }
  }

  /** The directories among `names`, in order. */
  ghost function DirsAmong(tree: Tree, names: seq<Path>): (r: seq<Path>)
    requires forall p :: p in names ==> p in tree
    ensures forall p :: p in r <==> p in names && tree[p].Dir?
    ensures NoDup(names) ==> NoDup(r)
  {
    if names == [] then []
    else
      var k := |names| - 1;
      assert names == names[..k] + [names[k]];
      var rest := DirsAmong(tree, names[..k]);
      assert NoDup(names) ==> NoDup(names[..k]) && names[k] !in names[..k];
      if tree[names[k]].Dir? then rest + [names[k]] else rest
  }

  /** One directory of the walk: its entries are normalised, its subdirectories pushed. */
  method VisitEntries(disk: Disk, names: seq<Path>, stack: seq<Path>, ghost original: Tree, ghost visited: seq<Path>)
    returns (pushed: seq<Path>)
    requires NormalAt(disk.tree, original, visited) && NoDup(names)
    requires forall p :: p in names ==> p in original && p !in visited
    modifies disk`tree
    ensures NormalAt(disk.tree, original, visited + names) && pushed == stack + DirsAmong(original, names)
  {
    pushed := stack;
    assert visited + names[..0] == visited;
    for i := 0 to |names|
      invariant NormalAt(disk.tree, original, visited + names[..i])
      invariant pushed == stack + DirsAmong(original, names[..i])
    {
      var path := names[i];
      assert names[..i + 1] == names[..i] + [path] && names[..i + 1][..i] == names[..i];
      assert path !in names[..i] && path !in visited + names[..i];
      var isDir := disk.tree[path].Dir?;
      disk.NormalizeMeta(path, isDir);
      assert visited + names[..i + 1] == visited + names[..i] + [path];
      if isDir {
        pushed := pushed + [path];
      }
    }
    assert names[..|names|] == names;
  }

  /** Where the walk is: the directories it has listed, those still on its stack, and what it has visited. */
  ghost predicate Walking(tree: Tree, listed: set<Path>, stack: seq<Path>, visited: seq<Path>) {
    && NoDup(stack) && NoDup(visited)
    && (forall p :: p in visited <==> p in tree && p != [] && Parent(p) in listed)
    && (forall d :: d in stack || d in listed <==> d == [] || (d in visited && d in tree && tree[d].Dir?))
    && (forall d :: d in stack ==> d !in listed)
    && listed <= tree.Keys + {[]}
  }

  lemma WalkOn(tree: Tree, listed: set<Path>, stack: seq<Path>, visited: seq<Path>, dir: Path, names: seq<Path>)
    requires Closed(tree) && Walking(tree, listed, stack + [dir], visited) && Lists(names, tree, dir)
    ensures forall p :: p in names ==> p in tree && p !in visited
    ensures Walking(tree, listed + {dir}, stack + DirsAmong(tree, names), visited + names)
    ensures dir in tree.Keys + {[]} && dir !in listed
  {
    assert (stack + [dir])[|stack|] == dir;
    assert forall d :: d in stack ==> d in stack + [dir];
    forall i | 0 <= i < |stack| ensures stack[i] != dir {
      assert (stack + [dir])[i] != (stack + [dir])[|stack|];
    }
    assert dir in stack + [dir] && dir !in listed;
    var dirs := DirsAmong(tree, names);
    forall i, j | 0 <= i < j < |visited + names| ensures (visited + names)[i] != (visited + names)[j] {
      if i < |visited| && j >= |visited| { assert names[j - |visited|] in names; }
    }
    forall d | d in dirs ensures d !in stack && d !in listed && d != dir {
      assert d in names && d !in visited && d != [];
    }
    forall i, j | 0 <= i < j < |stack + dirs| ensures (stack + dirs)[i] != (stack + dirs)[j] {
      if i < |stack| && j >= |stack| { assert dirs[j - |stack|] in dirs; }
      if j < |stack| { assert (stack + [dir])[i] != (stack + [dir])[j]; }
    }
  }

  /** With nothing left on the stack everything has been visited. */
  lemma {:induction false} AllVisited(tree: Tree, listed: set<Path>, visited: seq<Path>, p: Path)
    requires Closed(tree) && Walking(tree, listed, [], visited) && p in tree
    ensures p in visited
    decreases |p|
  {
    if Parent(p) != [] {
      AllVisited(tree, listed, visited, Parent(p));
    }
  }

  /** `normalize_tree`: for every directory order, the walk visits every descendant of the destination exactly
      once, normalises it, and leaves the destination itself alone. */
  method NormalizeTree(disk: Disk) returns (ghost visited: seq<Path>)
    requires Closed(disk.tree)
    modifies disk`tree
    ensures NoDup(visited) && forall p :: p in visited <==> p in old(disk.tree)
    ensures disk.tree == NormalTree(old(disk.tree))
  {
    ghost var original := disk.tree;
    ghost var listed: set<Path> := {};
    var stack: seq<Path> := [[]];
    visited := [];
    assert NormalAt(disk.tree, original, []) && Walking(original, {}, [[]], []);
    hide NormalAt, Walking, Lists, DirsAmong, NoDup, NormalTree, Closed;
    while stack != []
      invariant Walking(original, listed, stack, visited)
      invariant NormalAt(disk.tree, original, visited)
      decreases |original.Keys + {[]} - listed|
    {
      var dir := stack[|stack| - 1];
      var rest := stack[..|stack| - 1];
      assert stack == rest + [dir];
      var names := disk.ReadDir(dir);
      SameListing(names, disk.tree, original, dir, visited);
      WalkOn(original, listed, rest, visited, dir, names);
      stack := VisitEntries(disk, names, rest, original, visited);
      LessToList(original.Keys + {[]}, listed, dir);
      visited := visited + names;
      listed := listed + {dir};
    }
    forall p | p in original ensures p in visited {
      AllVisited(original, listed, visited, p);
    }
    WalkDone(disk.tree, original, listed, visited);
  }

  lemma SameListing(names: seq<Path>, tree: Tree, original: Tree, dir: Path, visited: seq<Path>)
    requires Lists(names, tree, dir) && NormalAt(tree, original, visited)
    ensures Lists(names, original, dir) && NoDup(names)
  {
    assert forall p :: p in tree <==> p in tree.Keys;
  }

  lemma WalkDone(tree: Tree, original: Tree, listed: set<Path>, visited: seq<Path>)
    requires Walking(original, listed, [], visited) && NormalAt(tree, original, visited) && forall p :: p in original ==> p in visited
    ensures NoDup(visited) && (forall p :: p in visited <==> p in original) && tree == NormalTree(original)
  {
    hide NormalNode;
  }

  lemma LessToList(all: set<Path>, listed: set<Path>, dir: Path)
    requires dir in all && dir !in listed
    ensures |all - (listed + {dir})| < |all - listed|
  {
    assert all - listed == (all - (listed + {dir})) + {dir};
  }

  // ----- the whole

  method UnpackEntry(disk: Disk, entry: Entry) returns (ok: bool)
    requires disk.Valid()
    modifies disk
    ensures disk.Valid()
    ensures var r := Next(old(disk.Now()), EffectOf(entry));
            !r.Unmodelled? ==> ok == r.GoesOn() && disk.tree == r.tree && (ok ==> disk.Now() == r)
  {
    ok := true;
    if !entry.Entry? {
      return;
    }
    var safe := SanitizePath(entry.path);
    if safe.None? {
      return;
    }
    var path := safe.value;
    assert EffectOf(entry) == PathEffect(path, entry.node);
    hide Sanitized, EffectOf, Harmless;
    ok := UnpackPath(disk, path, entry.node);
  }

  /** An entry of an accepted path. */
  method UnpackPath(disk: Disk, path: Path, node: Node) returns (ok: bool)
    requires disk.Valid() && path != []
    modifies disk
    ensures disk.Valid()
    ensures var r := Next(old(disk.Now()), PathEffect(path, node));
            !r.Unmodelled? ==> ok == r.GoesOn() && disk.tree == r.tree && (ok ==> disk.Now() == r)
  {
    ApplyCloses(disk.tree, PathEffect(path, node));
    hide Closed, Fits;
    ok := true;
    var name := path[|path| - 1];
    if WHITEOUT <= name {
      var deleted := name[|WHITEOUT|..];
      if deleted == OPAQUE || deleted == "" {
        RootNotThere(disk.tree);
        disk.RemoveDirAll(Parent(path));
        PruneNothing(Parent(path));
        return;
      }
      if deleted != "." && deleted != ".." {
        var victim := Parent(path) + [deleted];
        ghost var before := disk.tree;
        disk.RemoveFile(victim);
        disk.RemoveDirAll(victim);
        PruneFile(before, victim);
        PruneNothing(victim);
      }
      return;
    }
    ok := disk.Unpack(path, node);
  }

  lemma RootNotThere(tree: Tree)
    requires Closed(tree)
    ensures [] !in tree
  {
  }

  lemma PruneNothing(v: Path)
    ensures Prune(map[], v) == map[] && forall tree: Tree :: Prune(tree, []) == map[]
  {
  }

  /** A file has nothing below it. */
  lemma PruneFile(tree: Tree, v: Path)
    requires Closed(tree) && v != []
    ensures v in tree && tree[v].File? ==> Prune(tree - {v}, v) == tree - {v} == Prune(tree, v)
  {
    if v in tree && tree[v].File? {
      forall p | p in tree && v <= p ensures p == v {
        if p != v { ParentsLive(tree, p, v); }
      }
    }
  }

  /** `unpack_reader` on a destination: the stream in order, then the walk; a failed entry ends it at once, and there
      is no walk without a destination. */
  method UnpackReader(disk: Disk, entries: seq<Entry>) returns (ok: bool)
    requires disk.Valid() && !disk.gone
    modifies disk
    ensures var r := Flattened(old(disk.tree), Effects(entries)); !r.Unmodelled? ==> ok == r.Ok? && disk.tree == r.tree
  {
    ghost var original := disk.tree;
    ghost var effects := Effects(entries);
    UnpackedNone(original, effects);
    hide Next, Closed, EffectOf, Effects, Unpacked;
    for i := 0 to |entries|
      invariant disk.Valid() && (Unpacked(original, effects[..i]) == disk.Now() || Unpacked(original, effects[..i]).Unmodelled?)
    {
      UnpackedNext(original, entries, i);
      NextEnds(Unpacked(original, effects[..i]), EffectOf(entries[i]));
      ok := UnpackEntry(disk, entries[i]);
      if !ok {
        EndStays(original, effects, i + 1);
        return;
      }
    }
    assert effects[..|effects|] == effects;
    if disk.gone {
      return false;
    }
    ghost var visited := NormalizeTree(disk);
    ok := true;
  }

  lemma NextEnds(r: Result, e: Effect)
    ensures r.Unmodelled? ==> Next(r, e) == r
    ensures Next(r, e).GoesOn() ==> r.GoesOn()
    ensures r.GoesOn() ==> !Next(r, e).IoError?
  {
  }

  lemma UnpackedNone(tree: Tree, effects: seq<Effect>)
    ensures Unpacked(tree, effects[..0]) == Ok(tree)
  {
  }

  lemma UnpackedNext(tree: Tree, entries: seq<Entry>, i: nat)
    requires i < |entries|
    ensures var effects := Effects(entries); var r := Unpacked(tree, effects[..i]);
            Unpacked(tree, effects[..i + 1]) == Next(r, EffectOf(entries[i]))
  {
    var effects := Effects(entries);
    assert effects[..i + 1][..i] == effects[..i] && effects[i] == EffectOf(entries[i]);
    hide Next, EffectOf;
  }

  lemma {:induction false} EndStays(tree: Tree, effects: seq<Effect>, k: nat)
    requires k <= |effects| && !Unpacked(tree, effects[..k]).GoesOn()
    ensures Unpacked(tree, effects) == Unpacked(tree, effects[..k])
  {
    if k == |effects| {
      assert effects[..k] == effects;
    } else {
      var pre := effects[..|effects| - 1];
      assert pre[..k] == effects[..k];
      EndStays(tree, pre, k);
    }
  }

  /** Flattening as a function of the destination and the effects of the stream. */
  function Flattened(tree: Tree, effects: seq<Effect>): Result {
    var r := Unpacked(tree, effects);
    if r.Ok? then Ok(NormalTree(r.tree)) else if r.Gone? then IoError(r.tree) else r
  }
}
