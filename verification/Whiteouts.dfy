/** What archive entries come to, told from their paths (src/oci/image.rs:69-108, 134-169, 173-190): which entries delete,
    which create, and what is left at the end. */
module Whiteouts {
  import opened Base
  import opened Image
  import opened Flattening

  // ----- what an entry is

  /** The entry names `path`: made of names and `.` only, with at least one name. */
  ghost predicate At(entry: Entry, path: Path) {
    && entry.Entry? && path != [] && Names(entry.path) == path
    && forall i :: 0 <= i < |entry.path| ==> entry.path[i].Normal? || entry.path[i].CurDir?
  }

  /** `dir/.wh.name`, the whiteout of `dir/name`. */
  ghost predicate Deletes(entry: Entry, victim: Path) {
    victim != [] && victim[|victim| - 1] !in {"", ".", "..", ".wh..opq"}
    && At(entry, victim[..|victim| - 1] + [".wh." + victim[|victim| - 1]])
  }

  /** `dir/.wh..wh..opq`, or the whiteout of the empty name in `dir`. */
  ghost predicate Clears(entry: Entry, dir: Path) { At(entry, dir + [".wh..wh..opq"]) || At(entry, dir + [".wh."]) }

  /** A path whose last name does not start with `.wh.`. */
  ghost predicate Writes(entry: Entry, path: Path) { At(entry, path) && !(".wh." <= path[|path| - 1]) }

  /** A whiteout of the name "." or "..", of which nothing is said. */
  ghost predicate Dotted(entry: Entry, dir: Path) { At(entry, dir + [".wh.."]) || At(entry, dir + [".wh..."]) }

  /** Neither of these: the entry is skipped. */
  ghost predicate Skipped(entry: Entry) { forall path :: !At(entry, path) }

  // ----- the effects the model gives to entries

  lemma AtSanitized(entry: Entry, path: Path)
    ensures At(entry, path) <==> entry.Entry? && Sanitized(entry.path) == Some(path)
  {
  }

  lemma Split(name: string)
    ensures ".wh." <= name ==> name == ".wh." + name[4..] && WHITEOUT <= name && name[|WHITEOUT|..] == name[4..]
    ensures WHITEOUT <= name ==> ".wh." <= name
  {
  }

  lemma Joined(deleted: string)
    ensures var name := ".wh." + deleted; WHITEOUT <= name && name[|WHITEOUT|..] == deleted && ".wh." <= name
  {
  }

  lemma LastOf(dir: Path, name: string)
    ensures (dir + [name])[|dir + [name]| - 1] == name && Parent(dir + [name]) == dir
  {
    assert (dir + [name])[..|dir|] == dir;
  }

  lemma DeletesIs(entry: Entry, victim: Path)
    requires Deletes(entry, victim)
    ensures EffectOf(entry) == Remove(victim)
  {
    var dir, deleted := victim[..|victim| - 1], victim[|victim| - 1];
    var path := dir + [".wh." + deleted];
    AtSanitized(entry, path);
    LastOf(dir, ".wh." + deleted);
    Joined(deleted);
    hide Sanitized, Parent;
    assert dir + [deleted] == victim;
  }

  lemma ClearsIs(entry: Entry, dir: Path)
    requires Clears(entry, dir)
    ensures EffectOf(entry) == Opaque(dir)
  {
    var deleted := if At(entry, dir + [".wh..wh..opq"]) then ".wh..opq" else "";
    assert ".wh." + ".wh..opq" == ".wh..wh..opq" && ".wh." + "" == ".wh.";
    AtSanitized(entry, dir + [".wh." + deleted]);
    LastOf(dir, ".wh." + deleted);
    Joined(deleted);
    hide Sanitized, Parent;
  }

  lemma WritesIs(entry: Entry, path: Path)
    requires Writes(entry, path)
    ensures EffectOf(entry) == Create(path, entry.node)
  {
    AtSanitized(entry, path);
    Split(path[|path| - 1]);
    hide Sanitized;
  }

  lemma SkippedIs(entry: Entry)
    requires Skipped(entry)
    ensures EffectOf(entry) == Nothing
  {
    if entry.Entry? && Sanitized(entry.path).Some? {
      AtSanitized(entry, Sanitized(entry.path).value);
    }
  }

  /** Every entry is of one of these kinds. */
  lemma KindOf(entry: Entry)
    ensures match EffectOf(entry)
            case Nothing => Skipped(entry)
            case Opaque(dir) => Clears(entry, dir)
            case Remove(victim) => Deletes(entry, victim)
            case Create(path, node) => Writes(entry, path) && node == entry.node
            case Dots => exists dir :: Dotted(entry, dir)
  {
    forall path | At(entry, path) ensures entry.Entry? && Sanitized(entry.path) == Some(path) { AtSanitized(entry, path); }
    if entry.Entry? && Sanitized(entry.path).Some? {
      var path := Sanitized(entry.path).value;
      AtSanitized(entry, path);
      var dir, name := Parent(path), path[|path| - 1];
      assert path == dir + [name];
      Split(name);
      if ".wh." <= name {
        var deleted := name[4..];
        assert deleted == ".wh..opq" ==> name == ".wh..wh..opq";
        assert deleted == "" ==> name == ".wh.";
        assert deleted == "." ==> name == ".wh..";
        assert deleted == ".." ==> name == ".wh...";
        LastOf(dir, deleted);
        assert (dir + [deleted])[..|dir|] == dir;
        if deleted == "." || deleted == ".." { assert Dotted(entry, dir); }
      }
    }
  }

  // ----- one entry

  /** A destination after one entry. */
  function After(tree: Tree, entry: Entry): Result { Unpacked(tree, Effects([entry])) }

  lemma AfterIs(tree: Tree, entry: Entry)
    ensures After(tree, entry) == Apply(tree, EffectOf(entry))
  {
    var effects := Effects([entry]);
    assert effects == [EffectOf(entry)] && effects[..0] == [];
    hide Apply, EffectOf, Effects;
    assert Unpacked(tree, effects[..0]) == Ok(tree);
    assert Unpacked(tree, effects) == Next(Unpacked(tree, effects[..|effects| - 1]), effects[|effects| - 1]);
  }

  /** A whiteout takes its victim and everything below it, and nothing else. */
  lemma WhiteoutEntry(tree: Tree, entry: Entry, victim: Path)
    requires Deletes(entry, victim)
    ensures After(tree, entry) == Ok(map p | p in tree && !(victim <= p) :: tree[p])
  {
    DeletesIs(entry, victim);
    AfterIs(tree, entry);
    hide EffectOf, After, Deletes;
    assert victim != [] by { DeletesNamed(entry, victim); }
  }

  lemma DeletesNamed(entry: Entry, victim: Path)
    requires Deletes(entry, victim)
    ensures victim != []
  {
  }

  /** An opaque marker takes its directory and everything below it; a file of that name stays. */
  lemma OpaqueEntry(tree: Tree, entry: Entry, dir: Path)
    requires Clears(entry, dir) && dir != []
    ensures After(tree, entry)
         == Ok(if dir in tree && tree[dir].File? then tree else map p | p in tree && !(dir <= p) :: tree[p])
  {
    ClearsIs(entry, dir);
    AfterIs(tree, entry);
    hide EffectOf, After, Clears;
  }

  /** A file or directory stands in the way: one at the path itself that is the other, or a file above it. */
  ghost predicate Conflict(tree: Tree, path: Path, node: Node) {
    || (path in tree && tree[path].File? != node.File?)
    || exists d :: d in tree && d != [] && d < path && tree[d].File?
  }

  /** Anything else is put there, replacing what was there, with the directories missing above it; what was there before
      stays otherwise. It fails if and only if something stands in the way. */
  lemma CreateEntry(tree: Tree, entry: Entry, path: Path)
    requires Writes(entry, path)
    ensures var r := After(tree, entry);
            if Conflict(tree, path, entry.node) then r == TarError(tree)
            else
              && r.Ok? && (forall p :: p in r.tree <==> p in tree || (p != [] && p <= path))
              && (forall p :: p in r.tree ==>
                    r.tree[p] == if p == path then entry.node else if p in tree then tree[p] else Dir(Meta(493, 0, 0, 0)))
  {
    WritesIs(entry, path);
    WritesNamed(entry, path);
    AfterIs(tree, entry);
    hide EffectOf, After, Writes;
    forall p ensures p in Uppers(path) <==> p != [] && p < path { UppersAre(path, p); }
    assert Fits(tree, path, entry.node) <==> !Conflict(tree, path, entry.node);
    var t := Grown(tree, path, entry.node);
    forall p ensures p in t <==> p in tree || (p != [] && p <= path) { PrefixCases(p, path); }
  }

  lemma PrefixCases(p: Path, path: Path)
    ensures p <= path <==> p == path || p < path
  {
  }

  lemma WritesNamed(entry: Entry, path: Path)
    requires Writes(entry, path)
    ensures path != []
  {
  }

  lemma SkippedEntry(tree: Tree, entry: Entry)
    requires Skipped(entry)
    ensures After(tree, entry) == Ok(tree)
  {
    SkippedIs(entry);
    AfterIs(tree, entry);
    hide EffectOf, After, Skipped;
  }

  // ----- whole archives

  /** What the destination held before the `j`-th entry. */
  function HeldBefore(tree: Tree, entries: seq<Entry>, j: nat): Tree
    requires j <= |entries|
  {
    Unpacked(tree, Effects(entries[..j])).tree
  }

  /** The `j`-th entry deletes `p`: a whiteout of it or of something above it, or an opaque marker of a directory that is, or
      is above, it. */
  ghost predicate Erases(tree: Tree, entries: seq<Entry>, j: nat, p: Path)
    requires j < |entries|
  {
    || (exists victim :: Deletes(entries[j], victim) && victim <= p)
    || (exists dir :: Clears(entries[j], dir) && dir <= p && var held := HeldBefore(tree, entries, j); !(dir in held && held[dir].File?))
  }

  ghost predicate ErasedFrom(tree: Tree, entries: seq<Entry>, from: nat, p: Path) {
    exists j :: from <= j < |entries| && Erases(tree, entries, j, p)
  }

  /** The entry creates `p`, or something below it. */
  ghost predicate Brings(entry: Entry, p: Path) { exists path :: Writes(entry, path) && p <= path }

  lemma ErasesIs(tree: Tree, entries: seq<Entry>, j: nat, p: Path)
    requires j < |entries|
    ensures Erases(tree, entries, j, p) <==> Kills(tree, Effects(entries), j, p)
  {
    var entry := entries[j];
    assert Effects(entries)[..j] == Effects(entries[..j]) && Effects(entries)[j] == EffectOf(entry);
    assert HeldBefore(tree, entries, j) == Before(tree, Effects(entries), j);
    KindOf(entry);
    forall victim | Deletes(entry, victim) ensures EffectOf(entry) == Remove(victim) { DeletesIs(entry, victim); }
    forall dir | Clears(entry, dir) ensures EffectOf(entry) == Opaque(dir) { ClearsIs(entry, dir); }
    hide EffectOf, Effects, Deletes, Clears, Unpacked, Skipped, Writes, Dotted;
  }

  lemma BringsIs(entry: Entry, p: Path)
    ensures Brings(entry, p) <==> Makes(EffectOf(entry), p)
  {
    KindOf(entry);
    forall path | Writes(entry, path) ensures EffectOf(entry) == Create(path, entry.node) { WritesIs(entry, path); }
    hide EffectOf, Deletes, Clears, Skipped, Writes, Dotted;
  }

  lemma SparedIs(tree: Tree, entries: seq<Entry>, from: nat, p: Path)
    ensures Spared(tree, Effects(entries), p, from) <==> !ErasedFrom(tree, entries, from, p)
  {
    forall j | 0 <= j < |entries| ensures Erases(tree, entries, j, p) <==> Kills(tree, Effects(entries), j, p) {
      ErasesIs(tree, entries, j, p);
    }
    hide Erases, Kills;
  }

  /** Last effect wins, from the entries: after an archive that unpacks a path is there if and only if it was there and no
      entry deletes it, or some entry brings it and no later entry deletes it. */
  lemma ArchiveLeaves(tree: Tree, entries: seq<Entry>, p: Path)
    requires Unpacked(tree, Effects(entries)).Ok? && p != []
    ensures p in Unpacked(tree, Effects(entries)).tree
            <==> (p in tree && !ErasedFrom(tree, entries, 0, p))
                 || exists i :: 0 <= i < |entries| && Brings(entries[i], p) && !ErasedFrom(tree, entries, i + 1, p)
  {
    var effects := Effects(entries);
    LastEffectWins(tree, effects, p);
    forall i ensures 0 <= i <= |entries| ==> (Spared(tree, effects, p, i) <==> !ErasedFrom(tree, entries, i, p)) {
      if 0 <= i <= |entries| { SparedIs(tree, entries, i, p); }
    }
    forall i | 0 <= i < |entries| ensures Brings(entries[i], p) <==> Makes(effects[i], p) {
      BringsIs(entries[i], p);
      assert effects[i] == EffectOf(entries[i]);
    }
    hide Spared, ErasedFrom, Brings, Makes, Unpacked, Effects;
  }

  /** And it holds what the last entry naming it says, if no later entry deletes it. */
  lemma ArchiveHolds(tree: Tree, entries: seq<Entry>, p: Path, i: nat)
    requires Unpacked(tree, Effects(entries)).Ok? && i < |entries|
    requires Writes(entries[i], p) && !ErasedFrom(tree, entries, i + 1, p)
    requires forall j :: i < j < |entries| ==> !Writes(entries[j], p)
    ensures p in Unpacked(tree, Effects(entries)).tree && Unpacked(tree, Effects(entries)).tree[p] == entries[i].node
  {
    var effects := Effects(entries);
    WritesNamed(entries[i], p);
    WritesIs(entries[i], p);
    assert effects[i] == EffectOf(entries[i]);
    SparedIs(tree, entries, i + 1, p);
    forall j | i < j < |effects| ensures !CreatesAt(effects[j], p) {
      KindOf(entries[j]);
      assert effects[j] == EffectOf(entries[j]);
    }
    hide Spared, ErasedFrom, Unpacked, Effects, EffectOf, Writes;
    LastCreateWins(tree, effects, p, i);
  }

  /** A whiteout holds: its victim and everything below it are gone unless a later entry brings them again. */
  lemma WhiteoutHolds(tree: Tree, entries: seq<Entry>, i: nat, victim: Path, p: Path)
    requires Unpacked(tree, Effects(entries)).Ok? && i < |entries| && Deletes(entries[i], victim) && victim <= p
    requires p in Unpacked(tree, Effects(entries)).tree
    ensures exists j :: i < j < |entries| && Brings(entries[j], p)
  {
    DeletesNamed(entries[i], victim);
    ArchiveLeaves(tree, entries, p);
    assert Erases(tree, entries, i, p);
    assert forall k :: 0 <= k <= i ==> ErasedFrom(tree, entries, k, p);
    var j :| 0 <= j < |entries| && Brings(entries[j], p) && !ErasedFrom(tree, entries, j + 1, p);
    assert j != i by {
      if j == i {
        KindOf(entries[i]);
        DeletesIs(entries[i], victim);
        BringsIs(entries[i], p);
      }
    }
    assert j > i;
  }

  // ----- the walk, in numbers

  /** After flattening directories have mode 755 and files 755 or 644, as any or none of the three execute bits was set; times
      and owners are zero, contents are kept. */
  lemma FlatNode(tree: Tree, effects: seq<Effect>, p: Path)
    requires Flattened(tree, effects).Ok? && p in Unpacked(tree, effects).tree
    ensures var node, flat := Unpacked(tree, effects).tree[p], Flattened(tree, effects).tree;
            && p in flat
            && flat[p] == match node
                          case Dir(_) => Dir(Meta(493, 0, 0, 0))
                          case File(content, meta) =>
                            var executable := meta.mode % 2 == 1 || meta.mode / 8 % 2 == 1 || meta.mode / 64 % 2 == 1;
                            File(content, Meta(if executable then 493 else 420, 0, 0, 0))
  {
    hide Unpacked;
  }

  // ----- an archive

  /** `etc/passwd`, then `etc/.wh.passwd`: the directory made on the way is all that is left. */
  lemma WhiteoutShows(content: seq<nat>, meta: Meta, marker: Node)
    ensures var entries := [Entry([Normal("etc"), Normal("passwd")], File(content, meta)),
                            Entry([Normal("etc"), Normal(".wh.passwd")], marker)];
            Flattened(map[], Effects(entries)) == Ok(map[["etc"] := Dir(Meta(493, 0, 0, 0))])
  {
    hide *;
    var file, gone := Entry([Normal("etc"), Normal("passwd")], File(content, meta)), Entry([Normal("etc"), Normal(".wh.passwd")], marker);
    var entries := [file, gone];
    var path := ["etc", "passwd"];
    PasswdFile(file, path);
    PasswdGone(gone, path);
    CreateEntry(map[], file, path);
    var t := After(map[], file).tree;
    NoConflict(path, file.node);
    EtcTree(path, file.node, t);
    WhiteoutEntry(t, gone, path);
    TwoEntries(file, gone, t);
    NormalEtc(path, file.node, t);
    FlattenedOk(entries, map[["etc"] := Dir(Meta(493, 0, 0, 0))]);
  }

  lemma PasswdFile(file: Entry, path: Path)
    requires file.Entry? && file.path == [Normal("etc"), Normal("passwd")] && path == ["etc", "passwd"]
    ensures Writes(file, path)
  {
    NamesOf("etc", "passwd");
    assert ".wh."[0] != "passwd"[0];
    hide Names;
  }

  lemma PasswdGone(gone: Entry, path: Path)
    requires gone.Entry? && gone.path == [Normal("etc"), Normal(".wh.passwd")] && path == ["etc", "passwd"]
    ensures Deletes(gone, path)
  {
    NamesOf("etc", ".wh.passwd");
    hide Names;
    assert ".wh." + "passwd" == ".wh.passwd" && path[..1] == ["etc"] && path[1] == "passwd";
    assert path[..1] + [".wh." + path[1]] == ["etc", ".wh.passwd"];
  }

  lemma EtcTree(path: Path, node: Node, t: Tree)
    requires path == ["etc", "passwd"] && (forall p :: p in t <==> p != [] && p <= path)
    requires forall p :: p in t ==> t[p] == if p == path then node else Dir(Meta(493, 0, 0, 0))
    ensures t == map[["etc"] := Dir(Meta(493, 0, 0, 0)), path := node]
  {
    assert ["etc"] <= path && ["etc"] != path;
    forall p | p in t ensures p == ["etc"] || p == path {
      if |p| == 1 { assert p == ["etc"]; } else { assert p == path; }
    }
  }

  lemma NoConflict(path: Path, node: Node)
    ensures !Conflict(map[], path, node)
  {
  }

  lemma TwoEntries(a: Entry, b: Entry, t: Tree)
    requires After(map[], a) == Ok(t)
    ensures Unpacked(map[], Effects([a, b])) == After(t, b)
  {
    AfterIs(map[], a);
    AfterIs(t, b);
    var effects := Effects([a, b]);
    assert effects[..1] == Effects([a]) && effects[1] == EffectOf(b);
    hide Apply, EffectOf;
  }

  lemma NormalEtc(path: Path, node: Node, t: Tree)
    requires path == ["etc", "passwd"] && t == map[["etc"] := Dir(Meta(493, 0, 0, 0)), path := node]
    ensures (map p | p in t && !(path <= p) :: t[p]) == map[["etc"] := Dir(Meta(493, 0, 0, 0))]
  {
    assert !(path <= ["etc"]);
  }

  lemma FlattenedOk(entries: seq<Entry>, t: Tree)
    requires Unpacked(map[], Effects(entries)) == Ok(t) && t == map[["etc"] := Dir(Meta(493, 0, 0, 0))]
    ensures Flattened(map[], Effects(entries)) == Ok(t)
  {
    assert NormalTree(t) == t;
    hide Unpacked, Effects;
  }
}
